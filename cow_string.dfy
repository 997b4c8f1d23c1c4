/**
  `CowString`: a string that is either borrowed from the tracing callsite or owned.
  Its hand-written `PartialEq` and `Hash` look at the content only, while its derived
  `Ord` compares the variant first and the content second.
*/
module CowStrings {

  datatype Ordering = Less | Equal | Greater

  function Flip(o: Ordering): Ordering {
    match o
    case Less => Greater
    case Equal => Equal
    case Greater => Less
  }

  /** `Ord` for `str`: lexicographic, by code point (the order of the UTF-8 bytes). */
  function StrCmp(a: string, b: string): Ordering {
    if |a| == 0 then (if |b| == 0 then Equal else Less)
    else if |b| == 0 then Greater
    else if a[0] < b[0] then Less
    else if b[0] < a[0] then Greater
    else StrCmp(a[1..], b[1..])
  }

  lemma {:induction false} StrCmpEqual(a: string, b: string)
    ensures StrCmp(a, b) == Equal <==> a == b
  {
    if |a| > 0 && |b| > 0 && a[0] == b[0] {
      StrCmpEqual(a[1..], b[1..]);
      assert a == [a[0]] + a[1..] && b == [b[0]] + b[1..];
    }
  }

  lemma {:induction false} StrCmpFlip(a: string, b: string)
    ensures StrCmp(b, a) == Flip(StrCmp(a, b))
  {
    if |a| > 0 && |b| > 0 && a[0] == b[0] {
      StrCmpFlip(a[1..], b[1..]);
    }
  }

  lemma {:induction false} StrCmpTransitive(a: string, b: string, c: string)
    requires StrCmp(a, b) == Less && StrCmp(b, c) == Less
    ensures StrCmp(a, c) == Less
  {
    if |a| > 0 && |b| > 0 && |c| > 0 && a[0] == b[0] == c[0] {
      StrCmpTransitive(a[1..], b[1..], c[1..]);
    }
  }

  datatype CowString = Borrowed(borrowed: string) | Owned(owned: string)

  /** `CowString::as_str`: the content, whichever the representation. */
  function AsStr(c: CowString): (r: string)
    ensures c == Borrowed(r) || c == Owned(r)
  {
    match c
    case Borrowed(b) => b
    case Owned(o) => o
  }

  /** `From<&str>`: a string slice is always wrapped as borrowed. */
  function FromStr(s: string): (r: CowString)
    ensures r.Borrowed? && AsStr(r) == s
  {
    Borrowed(s)
  }

  /** `CowString::to_owned`: always a fresh owned copy of the content, even of an owned value. */
  function ToOwned(c: CowString): (r: CowString)
    ensures r.Owned? && AsStr(r) == AsStr(c)
    ensures c.Owned? ==> r == c
  {
    Owned(AsStr(c))
  }

  /**
    The hand-written `PartialEq`: the contents compare `Equal` as strings, which is what
    the derived `Ord` says of the two owned copies.
  */
  function Eq(a: CowString, b: CowString): (r: bool)
    ensures r <==> StrCmp(AsStr(a), AsStr(b)) == Equal
    ensures r <==> Cmp(ToOwned(a), ToOwned(b)) == Equal
  {
    StrCmpEqual(AsStr(a), AsStr(b));
    AsStr(a) == AsStr(b)
  }

  /**
    The hand-written `Hash` (and the identical `hash32::Hash`): the content alone is fed
    to the hasher, so the result is the hasher applied to `AsStr`, for any hasher.
  */
  function Hash(c: CowString, hasher: string -> nat): (h: nat)
    ensures forall d :: Eq(c, d) ==> h == hasher(AsStr(d))
  {
    hasher(AsStr(c))
  }

  /** The derived `Ord`: `Borrowed` sorts before `Owned`, then the payloads are compared. */
  function Cmp(a: CowString, b: CowString): (o: Ordering)
    ensures o == Equal <==> a == b
    ensures a.Borrowed? && b.Owned? ==> o == Less
    ensures a.Owned? && b.Borrowed? ==> o == Greater
  {
    StrCmpEqual(AsStr(a), AsStr(b));
    match (a, b)
    case (Borrowed(_), Owned(_)) => Less
    case (Owned(_), Borrowed(_)) => Greater
    case _ => StrCmp(AsStr(a), AsStr(b))
  }

  lemma CmpEqual(a: CowString, b: CowString)
    ensures Cmp(a, b) == Equal <==> a == b
  {
    StrCmpEqual(AsStr(a), AsStr(b));
  }

  lemma CmpFlip(a: CowString, b: CowString)
    ensures Cmp(b, a) == Flip(Cmp(a, b))
  {
    StrCmpFlip(AsStr(a), AsStr(b));
  }

  lemma CmpTransitive(a: CowString, b: CowString, c: CowString)
    requires Cmp(a, b) == Less && Cmp(b, c) == Less
    ensures Cmp(a, c) == Less
  {
    if a.Borrowed? == b.Borrowed? == c.Borrowed? {
      StrCmpTransitive(AsStr(a), AsStr(b), AsStr(c));
    }
  }

  /** Equality is an equivalence relation that ignores the representation. */
  lemma EqIsContentEquality(a: CowString, b: CowString, c: CowString)
    ensures Eq(a, a)
    ensures Eq(a, b) ==> Eq(b, a)
    ensures Eq(a, b) && Eq(b, c) ==> Eq(a, c)
    ensures Eq(a, b) <==> Eq(ToOwned(a), ToOwned(b))
  {
  }

  /** Equal values hash equally under every hasher; in particular a borrowed and an owned copy do. */
  lemma HashAgreesWithEq(a: CowString, b: CowString, hasher: string -> nat)
    requires Eq(a, b)
    ensures Hash(a, hasher) == Hash(b, hasher)
  {
  }

  lemma BorrowedEqualsOwned(s: string, hasher: string -> nat)
    ensures Eq(FromStr(s), ToOwned(FromStr(s)))
    ensures Hash(FromStr(s), hasher) == Hash(ToOwned(FromStr(s)), hasher)
  {
  }

  /**
    The derived order does not agree with the hand-written equality: two values that are
    equal can still compare as `Less`.
  */
  lemma OrdDisagreesWithEq()
    ensures Eq(Borrowed("a"), Owned("a"))
    ensures Cmp(Borrowed("a"), Owned("a")) == Less
  {
  }

  /** Among owned values (the keys of every materialised map) the derived order is the content order. */
  lemma {:induction false} CmpOwnedIsContentOrder(a: CowString, b: CowString)
    requires a.Owned? && b.Owned?
    ensures Cmp(a, b) == Equal <==> Eq(a, b)
    ensures Cmp(a, b) == StrCmp(AsStr(a), AsStr(b))
  {
    StrCmpEqual(AsStr(a), AsStr(b));
  }
}
