/**
 * `PaneManager` (`panes.py`): the list of pane indices of one chart and the
 * series tracked per pane. The scripts it sends to the chart are kept as a
 * log of what they ask for.
 */
module Panes {
  import opened Wrappers

  /** A series object, identified by reference. */
  datatype SeriesRef = SeriesRef(id: nat)

  /** What a script passed to `run_script` asks the chart to do. */
  datatype PaneScript = StorePaneHeight(pane: int, height: int) | RemovePaneScript(pane: int)

  /** The `ValueError` raised for the main pane. */
  datatype PaneError = CannotRemoveMainPane

  /** `list.remove(x)`: drops the first occurrence of `x`, if there is one. */
  function RemoveFirst(s: seq<int>, x: int): (r: seq<int>)
    ensures |r| == if x in s then |s| - 1 else |s|
  {
    if s == [] then []
    else if s[0] == x then
      assert s == [s[0]] + s[1..];
      s[1..]
    else
      assert s == [s[0]] + s[1..];
      [s[0]] + RemoveFirst(s[1..], x)
  }

  /** Position of the first occurrence of `x` in `s`. */
  function FirstIndex(s: seq<int>, x: int): (i: nat)
    requires x in s
    ensures i < |s| && s[i] == x && x !in s[..i]
  {
    if s[0] == x then 0 else FirstIndex(s[1..], x) + 1
  }

  /** `RemoveFirst` cuts out exactly the first occurrence and keeps the order of the rest. */
  lemma {:induction false} RemoveFirstOccurrence(s: seq<int>, x: int)
    ensures x !in s ==> RemoveFirst(s, x) == s
    ensures x in s ==> RemoveFirst(s, x) == s[..FirstIndex(s, x)] + s[FirstIndex(s, x) + 1..]
  {
    if x in s {
      RemoveFirstCutsAt(s, x, FirstIndex(s, x));
    } else {
      RemoveFirstAbsent(s, x);
    }
  }
  lemma {:induction false} RemoveFirstAbsent(s: seq<int>, x: int)
    requires x !in s
    ensures RemoveFirst(s, x) == s
  {
    if s != [] {
      assert x !in s[1..] by { assert s == [s[0]] + s[1..]; }
      RemoveFirstAbsent(s[1..], x);
      assert s == [s[0]] + s[1..];
    }
  }
  /** Removing `x` cuts out position `i` when that is where `x` first occurs. */
  lemma {:induction false} RemoveFirstCutsAt(s: seq<int>, x: int, i: nat)
    requires i < |s| && s[i] == x && x !in s[..i]
    ensures RemoveFirst(s, x) == s[..i] + s[i + 1..]
  {
    if i == 0 {
      assert s[..0] + s[1..] == s[1..];
    } else {
      var t := s[1..];
      assert s[0] != x && s[..i] == [s[0]] + t[..i - 1];
      RemoveFirstCutsAt(t, x, i - 1);
      assert RemoveFirst(s, x) == [s[0]] + RemoveFirst(t, x);
      ConsCut(s, i - 1);
    }
  }
  /** Cutting position `i + 1` out of `s` keeps `s[0]` in front of its tail cut at `i`. */
  lemma ConsCut(s: seq<int>, i: nat)
    requires i + 1 < |s|
    ensures [s[0]] + (s[1..][..i] + s[1..][i + 1..]) == s[..i + 1] + s[i + 2..]
  {
    assert s[..i + 1] == [s[0]] + s[1..][..i];
    assert s[i + 2..] == s[1..][i + 1..];
  }

  /** `RemoveFirst` takes one copy of `x` out of the list and nothing else. */
  lemma {:induction false} RemoveFirstMultiset(s: seq<int>, x: int)
    ensures multiset(RemoveFirst(s, x)) == multiset(s) - multiset{x}
  {
    if s != [] {
      assert s == [s[0]] + s[1..];
      if s[0] != x {
        RemoveFirstMultiset(s[1..], x);
      }
    }
  }

  class PaneManager {
    var panes: seq<int>
    var series: map<int, seq<SeriesRef>>
    var scripts: seq<PaneScript>

    /** The main pane, index 0, is always first and always has a series list. */
    ghost predicate Valid()
      reads this
    {
      |panes| > 0 && panes[0] == 0 && 0 in series
    }

    /** `__init__`: only the main pane, with no series. */
    constructor ()
      ensures Valid() && panes == [0] && series == map[0 := []] && scripts == []
    {
      panes, series, scripts := [0], map[0 := []], [];
    }

    /** `create_pane`: the new index is the current number of panes; a height
        is stored only when it is truthy (neither `None` nor `0`). */
    method CreatePane(height: Option<int>) returns (index: int)
      requires Valid()
      modifies this
      ensures Valid()
      ensures index == |old(panes)| && panes == old(panes) + [index]
      ensures series == old(series)[index := []]
      ensures scripts == if height.Some? && height.value != 0
        then old(scripts) + [StorePaneHeight(index, height.value)] else old(scripts)
    {
      index := |panes|;
      panes := panes + [index];
      series := series[index := []];
      if height.Some? && height.value != 0 {
        scripts := scripts + [StorePaneHeight(index, height.value)];
      }
    }

    /** `remove_pane`: refuses the main pane and changes nothing; otherwise
        drops the first occurrence of the index and its series entry. */
    method RemovePane(index: int) returns (r: Result<(), PaneError>)
      requires Valid()
      modifies this
      ensures Valid()
      ensures index == 0 ==>
        (r == Failure(CannotRemoveMainPane) &&
         panes == old(panes) && series == old(series) && scripts == old(scripts))
      ensures index != 0 ==>
        (r == Success(()) &&
         panes == RemoveFirst(old(panes), index) && series == old(series) - {index} &&
         scripts == old(scripts) + [RemovePaneScript(index)])
    {
      if index == 0 {
        return Failure(CannotRemoveMainPane);
      }
      scripts := scripts + [RemovePaneScript(index)];
      if index in panes {
        panes := RemoveFirst(panes, index);
      } else {
        RemoveFirstOccurrence(panes, index);
      }
      if index in series {
        series := series - {index};
      }
      r := Success(());
    }

    /** `get_pane_count`. */
    method GetPaneCount() returns (n: nat)
      requires Valid()
      ensures n == |panes| && n >= 1
    {
      n := |panes|;
    }

    /** `track_series`: appends to the pane's list, creating it if missing;
        nothing else changes. */
    method TrackSeries(s: SeriesRef, index: int)
      requires Valid()
      modifies this`series
      ensures Valid()
      ensures index in series && series[index] == (if index in old(series) then old(series)[index] else []) + [s]
      ensures forall p :: p != index ==> (p in series <==> p in old(series)) && (p in series ==> series[p] == old(series)[p])
    {
      if index !in series {
        series := series[index := []];
      }
      series := series[index := series[index] + [s]];
    }
  }

  /** After a removal, `len(_panes)` can name a pane that still exists: the
      next `create_pane` hands out that index a second time and empties its
      series list. */
  method IndexCollisionAfterRemoval(s: SeriesRef) returns (pm: PaneManager, reused: int)
    ensures pm.Valid() && reused == 2 && pm.panes == [0, 2, 2] && 2 in pm.series && pm.series[2] == []
  {
    pm := new PaneManager();
    var first := pm.CreatePane(None);
    assert pm.panes == [0, 1];
    var second := pm.CreatePane(None);
    assert pm.panes == [0, 1, 2];
    pm.TrackSeries(s, second);
    assert pm.series[2] == [s];
    var removed := pm.RemovePane(first);
    assert RemoveFirst([0, 1, 2], 1) == [0] + RemoveFirst([1, 2], 1) == [0, 2];
    assert pm.panes == [0, 2] && 2 in pm.series;
    reused := pm.CreatePane(None);
  }
}
