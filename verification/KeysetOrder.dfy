/** The order every listing follows, and what an ordered query returns. */
module KeysetOrder {
  import opened UserEntity

  /** PostgreSQL compares `uuid` values as their hexadecimal text compares. */
  datatype Key = Key(createdAt: int, id: UserId)

  datatype Direction = Asc | Desc

  function KeyOf(r: UserSnapshot): Key {
    Key(r.createdAt, r.id)
  }

  predicate TextBefore(a: string, b: string)
    decreases |a|
  {
    b != [] && (a == [] || a[0] < b[0] || (a[0] == b[0] && TextBefore(a[1..], b[1..])))
  }

  predicate KeyBefore(a: Key, b: Key) {
    a.createdAt < b.createdAt || (a.createdAt == b.createdAt && TextBefore(a.id, b.id))
  }

  /** `ORDER BY created_at, id`, both in the same direction. */
  predicate Before(d: Direction, a: Key, b: Key) {
    if d == Asc then KeyBefore(a, b) else KeyBefore(b, a)
  }

  lemma {:induction false} TextOrder(a: string, b: string, c: string)
    ensures !TextBefore(a, a)
    ensures a == b || TextBefore(a, b) || TextBefore(b, a)
    ensures TextBefore(a, b) && TextBefore(b, c) ==> TextBefore(a, c)
    decreases |a|
  {
    if a != [] {
      var b' := if b == [] then [] else b[1..];
      var c' := if c == [] then [] else c[1..];
      TextOrder(a[1..], b', c');
      if b != [] && a[0] == b[0] && a[1..] == b[1..] { assert a == [a[0]] + a[1..] && b == [b[0]] + b[1..]; }
    }
  }

  /** Text compares at the first place where it differs, and a text comes before its continuations. */
  lemma {:induction false} TextBeforeMeans(a: string, b: string)
    ensures TextBefore(a, b) <==>
              exists n :: 0 <= n <= |a| && n < |b| && a[..n] == b[..n] && (n == |a| || a[n] < b[n])
    decreases |a|
  {
    forall n | 0 < n <= |a| && n <= |b| ensures a[..n] == b[..n] ==> a[0] == b[0] {
      assert a[..n][0] == a[0] && b[..n][0] == b[0];
    }
    if b != [] { assert a[..0] == b[..0]; }
    if a != [] && b != [] && a[0] == b[0] {
      TextBeforeMeans(a[1..], b[1..]);
      var x, y := a[1..], b[1..];
      if n :| 0 <= n <= |x| && n < |y| && x[..n] == y[..n] && (n == |x| || x[n] < y[n]) {
        assert a[..n + 1] == [a[0]] + a[1..][..n] && b[..n + 1] == [b[0]] + b[1..][..n];
        assert n + 1 == |a| || a[n + 1] < b[n + 1];
      }
      if n :| 0 <= n <= |a| && n < |b| && a[..n] == b[..n] && (n == |a| || a[n] < b[n]) {
        assert n > 0;
        assert a[1..][..n - 1] == a[..n][1..] && b[1..][..n - 1] == b[..n][1..];
        assert n - 1 == |a[1..]| || a[1..][n - 1] < b[1..][n - 1];
      }
    }
  }

  /** The listing order is a strict total order on keys: by creation first, then by id, both the same way round. */
  lemma TotalOrder(d: Direction, a: Key, b: Key, c: Key)
    ensures !Before(d, a, a)
    ensures a == b || Before(d, a, b) || Before(d, b, a)
    ensures Before(d, a, b) && Before(d, b, c) ==> Before(d, a, c)
    ensures a.createdAt < b.createdAt ==> (Before(d, a, b) <==> d == Asc)
    ensures a.createdAt == b.createdAt && TextBefore(a.id, b.id) ==> (Before(d, a, b) <==> d == Asc)
  {
    TextOrder(a.id, b.id, c.id);
    TextOrder(c.id, b.id, a.id);
    TextOrder(a.id, b.id, a.id);
  }
}
