/**
 * The press rule the style and palette selectors share: pressing the selected
 * item clears the selection, pressing another item selects it.
 */
module Selection {
  import opened Wrappers
  import opened Seqs

  /** An item is drawn highlighted exactly when its id is the selected one. */
  predicate IsHighlighted(selected: Option<string>, id: string) {
    selected == Some(id)
  }

  /** `selected === id ? null : id`. Afterwards the pressed item is the only highlighted
      one, unless it was highlighted before, in which case none is. */
  function Toggle(selected: Option<string>, id: string): (r: Option<string>)
    ensures forall other :: IsHighlighted(r, other) <==> other == id && !IsHighlighted(selected, id)
  {
    if selected == Some(id) then None else Some(id)
  }

  /** Pressing the same item twice: from that item selected it comes back selected,
      from any other selection it ends with nothing selected. */
  lemma ToggleTwice(selected: Option<string>, id: string)
    ensures IsHighlighted(selected, id) ==> Toggle(Toggle(selected, id), id) == selected
    ensures !IsHighlighted(selected, id) ==> Toggle(Toggle(selected, id), id) == None
  {
  }

  predicate IdsDistinct<T>(items: seq<T>, idOf: T -> string) {
    forall i, j :: 0 <= i < j < |items| ==> idOf(items[i]) != idOf(items[j])
  }

  /** The items of a list drawn highlighted: exactly those whose id is the selected one,
      and, when the ids are distinct, at most one. */
  function Highlighted<T(==,!new)>(items: seq<T>, idOf: T -> string, selected: Option<string>): (r: seq<T>)
    requires IdsDistinct(items, idOf)
    ensures |r| <= 1
    ensures forall x :: x in r <==> x in items && IsHighlighted(selected, idOf(x))
  {
    AtMostOneHighlighted(items, idOf, selected);
    Filter(items, x => IsHighlighted(selected, idOf(x)))
  }

  /** In a list whose ids are distinct, at most one item is highlighted. */
  lemma {:induction false} AtMostOneHighlighted<T(!new)>(items: seq<T>, idOf: T -> string, selected: Option<string>)
    requires IdsDistinct(items, idOf)
    ensures |Filter(items, x => IsHighlighted(selected, idOf(x)))| <= 1
    decreases |items|
  {
    if |items| > 0 {
      AtMostOneHighlighted(items[1..], idOf, selected);
      if IsHighlighted(selected, idOf(items[0])) {
        forall k | 0 <= k < |items[1..]| ensures !IsHighlighted(selected, idOf(items[1..][k])) {
          assert idOf(items[0]) != idOf(items[k + 1]);
        }
        FilterNone(items[1..], x => IsHighlighted(selected, idOf(x)));
      }
    }
  }
}
