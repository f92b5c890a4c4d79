/** The page navigator: the ordered list of sections, which of them carry the
    `hidden` class, and the index of the page being shown. */
module Navigation {

  /** `hidden[k]` is the `hidden` class of section k; the page count is `|hidden|`. */
  datatype Nav = Nav(hidden: seq<bool>, current: int) {

    function Total(): int {
      |hidden|
    }

    /** At least one page, `current` in range, and exactly the current section is shown. */
    ghost predicate Valid() {
      && |hidden| >= 1
      && 0 <= current < |hidden|
      && forall k :: 0 <= k < |hidden| ==> (hidden[k] <==> k != current)
    }
  }

  /** The two guards at the head of `showIndex`: below zero goes to the first
      page, at or past the end goes to the last one. */
  function Clamp(i: int, total: int): (c: int)
    requires total >= 1
    ensures 0 <= c < total
    ensures 0 <= i < total ==> c == i
    ensures i < 0 ==> c == 0
    ensures i >= total ==> c == total - 1
  {
    var j := if i < 0 then 0 else i;
    if j >= total then total - 1 else j
  }

  /** `showIndex(i)`: clamp, un-hide that one section, hide every other, and make it current. */
  function ShowIndex(n: Nav, i: int): (r: Nav)
    requires |n.hidden| >= 1
    ensures r.Valid()
    ensures r.Total() == n.Total()
    ensures r.current == Clamp(i, n.Total())
  {
    var c := Clamp(i, |n.hidden|);
    Nav(seq(|n.hidden|, k => k != c), c)
  }

  /** `nextPage()`: one page forward unless already on the last page. */
  function NextPage(n: Nav): (r: Nav)
    requires n.Valid()
    ensures r.Valid()
    ensures r.Total() == n.Total()
    ensures n.current < n.Total() - 1 ==> r.current == n.current + 1
    ensures n.current == n.Total() - 1 ==> r == n
  {
    if n.current < n.Total() - 1 then ShowIndex(n, n.current + 1) else n
  }

  /** `k` presses of "next" in a row. */
  function Advance(n: Nav, k: nat): Nav
    requires n.Valid()
    ensures Advance(n, k).Valid()
    decreases k
  {
    if k == 0 then n else Advance(NextPage(n), k - 1)
  }

  function Min(a: int, b: int): int {
    if a <= b then a else b
  }

  /** Advancing saturates at the last page and never wraps around to the first. */
  lemma {:induction false} AdvanceSaturates(n: Nav, k: nat)
    requires n.Valid()
    ensures Advance(n, k).current == Min(n.current + k, n.Total() - 1)
    ensures Advance(n, k).Total() == n.Total()
    decreases k
  {
    if k > 0 {
      AdvanceSaturates(NextPage(n), k - 1);
    }
  }

  /** Once on the last page, "next" is a no-op however often it is pressed. */
  lemma {:induction false} LastPageIsFixed(n: Nav, k: nat)
    requires n.Valid() && n.current == n.Total() - 1
    ensures Advance(n, k) == n
    decreases k
  {
    if k > 0 {
      LastPageIsFixed(NextPage(n), k - 1);
    }
  }

  /** On six pages, five presses from the first page reach the last; a sixth stays there. */
  lemma SixPages(n: Nav)
    requires n.Valid() && n.Total() == 6 && n.current == 0
    ensures Advance(n, 5).current == 5
    ensures Advance(n, 6).current == 5
  {
  }
}
