/** What several modules need: optional values, unlinking from a list, places in a ring, and division. */
module Common {
  datatype Option<+T> = None | Some(value: T) {
    predicate IsFailure() { None? }
    function PropagateFailure<U>(): Option<U> requires None? { None }
    function Extract(): T requires Some? { value }
  }

  /** list_del. */
  function Remove<T(==)>(l: seq<T>, x: T): seq<T> {
    if l == [] then [] else if l[0] == x then l[1..] else [l[0]] + Remove(l[1..], x)
  }

  /** Where a position lies in a ring of the given size. */
  function Place(pos: nat, size: nat): (p: nat)
    requires size > 0
    ensures p < size
  {
    pos % size
  }

  /** Euclidean division is unique. */
  lemma ModUnique(x: int, w: int, q: int, r: int)
    requires w > 0 && x == q * w + r && 0 <= r < w
    ensures x % w == r && x / w == q
  {
    var q', r' := x / w, x % w;
    assert x == q' * w + r';
    var k := q' - q;
    assert k * w == q' * w - q * w;
    if k > 0 {
      MulAtLeast(k, w);
    } else if k < 0 {
      MulAtLeast(-k, w);
    }
  }

  lemma MulAtLeast(k: int, w: int)
    requires k >= 1 && w > 0
    ensures k * w >= w
  {
    assert k * w == (k - 1) * w + w && (k - 1) * w >= 0;
  }

  lemma MulMono(a: nat, b: nat, c: nat)
    requires a <= b
    ensures a * c <= b * c
  {
  }

  lemma DivBounds(n: nat, d: nat)
    requires d > 0
    ensures n / d * d <= n < (n / d + 1) * d
  {
  }

  lemma DivMono(a: nat, b: nat, d: nat)
    requires a <= b && d > 0
    ensures a / d <= b / d
  {
    DivBounds(a, d);
    DivBounds(b, d);
    if a / d > b / d {
      MulMono(b / d + 1, a / d, d);
    }
  }

  lemma QuotientsDiffer(a: nat, b: nat, d: nat)
    requires d > 0 && a + d <= b
    ensures a / d < b / d
  {
    DivBounds(a, d);
    DivBounds(b, d);
    if b / d <= a / d {
      MulMono(b / d + 1, a / d + 1, d);
    }
  }
}
