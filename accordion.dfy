/** The accordion (`Accordion`): the list of open item ids and the toggle that updates it,
    with one item open at a time by default or any number when `allowMultiple` is set. */
module Accordion {
  import opened Wrappers
  import opened Text

  /** The `allowMultiple` prop, false when omitted. */
  function AllowMultiple(prop: Option<bool>): (r: bool)
    ensures r <==> prop == Some(true)
  {
    match prop
    case Some(b) => b
    case None => false
  }

  /** Nothing is open when the accordion mounts. */
  const InitiallyOpen: seq<string> := []

  function Other(id: string): string -> bool {
    x => x != id
  }

  /** `toggleItem(id)` applied to the open list: in multiple mode the id is removed when
      present and appended when absent; in single mode an open id closes everything and any
      other id becomes the only open one. */
  function Toggle(open: seq<string>, id: string, allowMultiple: bool): (r: seq<string>)
    ensures id in r <==> id !in open
    ensures !allowMultiple ==> r == [] || r == [id]
    ensures allowMultiple ==> forall x :: x != id ==> (x in r <==> x in open)
  {
    if allowMultiple then
      if id in open then Filter(open, Other(id)) else open + [id]
    else
      if id in open then [] else [id]
  }

  predicate NoDuplicates(s: seq<string>) {
    forall i, j :: 0 <= i < j < |s| ==> s[i] != s[j]
  }

  /** Filtering keeps a list free of duplicates. */
  lemma {:induction false} FilterNoDuplicates(s: seq<string>, p: string -> bool)
    requires NoDuplicates(s)
    ensures NoDuplicates(Filter(s, p))
  {
    if s != [] {
      FilterNoDuplicates(s[1..], p);
      var rest := Filter(s[1..], p);
      if p(s[0]) {
        assert s[0] !in s[1..] by {
          forall k | 0 <= k < |s[1..]| ensures s[1..][k] != s[0] {
            assert s[1..][k] == s[k + 1];
          }
        }
        assert s[0] !in rest;
        var r := [s[0]] + rest;
        forall i, j | 0 <= i < j < |r| ensures r[i] != r[j] {
          if i == 0 {
            assert r[j] == rest[j - 1];
            assert rest[j - 1] in rest;
          } else {
            assert r[i] == rest[i - 1] && r[j] == rest[j - 1];
          }
        }
      }
    }
  }

  /** No toggle introduces a duplicate id. */
  lemma ToggleNoDuplicates(open: seq<string>, id: string, allowMultiple: bool)
    requires NoDuplicates(open)
    ensures NoDuplicates(Toggle(open, id, allowMultiple))
  {
    if allowMultiple {
      if id in open {
        FilterNoDuplicates(open, Other(id));
      } else {
        var r := open + [id];
        forall i, j | 0 <= i < j < |r| ensures r[i] != r[j] {
          if j == |open| {
            assert r[i] == open[i];
            assert open[i] in open;
          }
        }
      }
    }
  }

  /** In multiple mode, opening an item and closing it again restores the list exactly. */
  lemma ToggleTwiceRestores(open: seq<string>, id: string)
    requires id !in open
    ensures Toggle(Toggle(open, id, true), id, true) == open
  {
    var other := Other(id);
    FilterAppend(open, [id], other);
    forall i | 0 <= i < |open| ensures other(open[i]) {
      assert open[i] in open;
    }
    FilterKeepsAll(open, other);
    assert Filter([id], other) == [];
    assert Filter(open + [id], other) == open;
  }

  /** The open list after the clicks `ids`, one after the other. */
  function ToggleAll(open: seq<string>, ids: seq<string>, allowMultiple: bool): seq<string>
    decreases |ids|
  {
    if ids == [] then open else ToggleAll(Toggle(open, ids[0], allowMultiple), ids[1..], allowMultiple)
  }

  /** In single mode at most one item is ever open: from a state with at most one open
      item, and so from the initial one, any sequence of clicks leaves at most one. */
  lemma {:induction false} SingleModeAtMostOneOpen(open: seq<string>, ids: seq<string>)
    requires |open| <= 1
    ensures |ToggleAll(open, ids, false)| <= 1
    decreases |ids|
  {
    if ids != [] {
      SingleModeAtMostOneOpen(Toggle(open, ids[0], false), ids[1..]);
    }
  }

  /** In multiple mode a list without duplicates stays without duplicates under any
      sequence of toggles. */
  lemma {:induction false} MultipleModeNoDuplicates(open: seq<string>, ids: seq<string>)
    requires NoDuplicates(open)
    ensures NoDuplicates(ToggleAll(open, ids, true))
    decreases |ids|
  {
    if ids != [] {
      ToggleNoDuplicates(open, ids[0], true);
      MultipleModeNoDuplicates(Toggle(open, ids[0], true), ids[1..]);
    }
  }
}
