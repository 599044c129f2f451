// What the bets and claims tables hold after a clean pass. A row's key is its
// transaction and its index within whatever page it was read in, so pages cut
// in unlucky places could give two rows one key.

module IndexerRows {
  import opened Wrappers
  import opened Indexer
  import opened IndexerRuns

  // The page a position was read in.
  function PageOf(cuts: seq<nat>, p: nat): (i: nat)
    requires Cuts(cuts) && p < End(cuts)
    ensures i + 1 < |cuts| && cuts[i] <= p < cuts[i + 1]
  {
    if cuts[|cuts| - 2] <= p then |cuts| - 2 else PageOf(cuts[..|cuts| - 1], p)
  }

  function KeyAt(log: seq<Entry>, cuts: seq<nat>, p: nat): RowKey
    requires Cuts(cuts) && p < End(cuts) <= |log|
  {
    RowKey(log[p].tx, p - cuts[PageOf(cuts, p)])
  }

  predicate HasRow(log: seq<Entry>, p: nat, kind: Kind) {
    p < |log| && RowOf(log[p].event, kind).Some?
  }

  // The events that make a row, each with the key it is recorded under.
  function KeyMap(log: seq<Entry>, cuts: seq<nat>, kind: Kind): map<nat, RowKey>
    requires Cuts(cuts) && End(cuts) <= |log|
  {
    map p: nat | p < End(cuts) && HasRow(log, p, kind) :: KeyAt(log, cuts, p)
  }

  // ----- Which rows there are -------------------------------------------------------------

  lemma InOrderAt(log: seq<Entry>, cuts: seq<nat>, c: nat, i: nat, r: RoundId)
    requires Cuts(cuts) && End(cuts) + i < c <= |log| && RoundsFirst(log)
    requires Concerns(log[End(cuts) + i].event, r)
    ensures Fold(Get(Clean(log, cuts).rounds, r), log[End(cuts)..c][..i], r).Some?
  {
    var b := End(cuts);
    assert NoOrphan(false, log, r);
    FoldSome(None, log[..b + i], r);
    CleanRounds(log, cuts, r);
    FoldSplit(None, log[..b], log[b..c][..i], r);
    assert log[..b + i] == log[..b] + log[b..c][..i];
  }

  lemma KeyInLast(log: seq<Entry>, cuts: seq<nat>, kind: Kind, p: nat)
    requires Cuts(cuts) && 1 < |cuts| && cuts[|cuts| - 2] <= p < End(cuts) <= |log|
    ensures p in KeyMap(log, cuts, kind) <==> HasRow(log, p, kind)
    ensures HasRow(log, p, kind) ==>
              KeyMap(log, cuts, kind)[p] == RowKey(log[p].tx, p - cuts[|cuts| - 2])
  {}

  // The last page adds the rows of its own events.
  lemma LastPage(log: seq<Entry>, cuts: seq<nat>, kind: Kind, key: RowKey)
    requires Cuts(cuts) && 1 < |cuts| && End(cuts) <= |log| && RoundsFirst(log)
    ensures var (b, keys) := (cuts[|cuts| - 2], KeyMap(log, cuts, kind));
            var page := log[b..End(cuts)];
            && (Inserts(Clean(log, cuts[..|cuts| - 1]), page, kind, key) <==>
                  b + key.index in keys && keys[b + key.index] == key)
            && (key.index < |page| ==> page[key.index] == log[b + key.index])
  {
    var front, b, c := cuts[..|cuts| - 1], cuts[|cuts| - 2], End(cuts);
    var p, page := b + key.index, log[b..c];
    if key.index < |page| {
      KeyInLast(log, cuts, kind, p);
      assert page[key.index] == log[p];
      if kind == Bets && HasRow(log, p, kind) {
        InOrderAt(log, front, c, key.index, log[p].event.bet.round);
        assert Inserts(Clean(log, front), page, kind, key) <==> log[p].tx == key.tx;
      } else {
        assert Inserts(Clean(log, front), page, kind, key) <==> log[p].tx == key.tx && HasRow(log, p, kind);
      }
    } else {
      assert p !in KeyMap(log, cuts, kind);
    }
  }

  lemma FrontKeys(log: seq<Entry>, cuts: seq<nat>, kind: Kind, p: nat)
    requires Cuts(cuts) && 1 < |cuts| && End(cuts) <= |log|
    ensures var (b, was, keys) := (cuts[|cuts| - 2], KeyMap(log, cuts[..|cuts| - 1], kind), KeyMap(log, cuts, kind));
            && (p in was <==> p in keys && p < b)
            && (p in was ==> keys[p] == was[p])
            && (p in keys && b <= p ==> p == b + keys[p].index)
  {}

  // The keys of the table are those of the events, and each row is that of
  // some event with its key.
  lemma {:induction false} CleanRows(log: seq<Entry>, cuts: seq<nat>, kind: Kind, key: RowKey)
    requires Cuts(cuts) && End(cuts) <= |log| && RoundsFirst(log)
    ensures var (table, keys) := (TableOf(Clean(log, cuts), kind), KeyMap(log, cuts, kind));
            && (forall p :: p in keys && keys[p] == key ==> key in table)
            && (key in table ==>
                  exists p :: p in keys && keys[p] == key && RowOf(log[p].event, kind) == Some(table[key]))
  {
    if |cuts| == 1 {
    } else {
      var front, b := cuts[..|cuts| - 1], cuts[|cuts| - 2];
      var was, keys := KeyMap(log, front, kind), KeyMap(log, cuts, kind);
      var before, after := TableOf(Clean(log, front), kind), TableOf(Clean(log, cuts), kind);
      CleanRows(log, front, kind, key);
      RowsAt(Clean(log, front), log[b..End(cuts)], kind, key);
      LastPage(log, cuts, kind, key);
      forall p | p in keys && keys[p] == key
        ensures key in after
      {
        FrontKeys(log, cuts, kind, p);
      }
      if key in before {
        var p :| p in was && was[p] == key && RowOf(log[p].event, kind) == Some(before[key]);
        FrontKeys(log, cuts, kind, p);
      }
    }
  }

  lemma TableKeys(log: seq<Entry>, cuts: seq<nat>, kind: Kind)
    requires Cuts(cuts) && End(cuts) <= |log| && RoundsFirst(log)
    ensures TableOf(Clean(log, cuts), kind).Keys == KeyMap(log, cuts, kind).Values
  {
    var keys := KeyMap(log, cuts, kind);
    forall key
      ensures key in TableOf(Clean(log, cuts), kind) <==> key in keys.Values
    {
      CleanRows(log, cuts, kind, key);
      if key in keys.Values {
        var p :| p in keys && keys[p] == key;
      }
    }
  }

  // ----- Clashes --------------------------------------------------------------------------------

  ghost predicate Injective(m: map<nat, RowKey>) {
    forall p, q :: p in m && q in m && m[p] == m[q] ==> p == q
  }

  lemma ValuesMore(m: map<nat, RowKey>, p: nat, key: RowKey)
    requires p !in m
    ensures m[p := key].Values == m.Values + {key} && |m[p := key]| == |m| + 1
  {
    var more := m[p := key];
    assert more.Keys == m.Keys + {p};
  }

  // A map has as many values as keys exactly when it is injective.
  lemma {:induction false} ValuesSize(m: map<nat, RowKey>)
    ensures |m.Values| <= |m|
    ensures |m.Values| == |m| <==> Injective(m)
    decreases |m|
  {
    if m == map[] {
    } else {
      var p :| p in m;
      var rest := m - {p};
      ValuesSize(rest);
      ValuesMore(rest, p, m[p]);
      assert m == rest[p := m[p]];
      if m[p] in rest.Values {
        var q :| q in rest && rest[q] == m[p];
        assert m[q] == m[p] && q != p;
        assert rest.Values + {m[p]} == rest.Values;
      } else {
        assert forall q :: q in rest ==> m[q] == rest[q] && rest[q] in rest.Values;
      }
    }
  }

  // The table holds a row for every bet (or claim) in the log, rather than
  // losing some to others, exactly when no two of them were given one key.
  lemma RowPerKey(log: seq<Entry>, cuts: seq<nat>, kind: Kind)
    requires Cuts(cuts) && End(cuts) <= |log| && RoundsFirst(log)
    ensures var (table, keys) := (TableOf(Clean(log, cuts), kind), KeyMap(log, cuts, kind));
            && |table| <= |keys|
            && (|table| == |keys| <==> Injective(keys))
            && (Injective(keys) ==>
                  forall p :: p in keys ==> keys[p] in table && Some(table[keys[p]]) == RowOf(log[p].event, kind))
  {
    var (table, keys) := (TableOf(Clean(log, cuts), kind), KeyMap(log, cuts, kind));
    TableKeys(log, cuts, kind);
    ValuesSize(keys);
    assert |table| == |table.Keys|;
    forall p | p in keys && Injective(keys)
      ensures keys[p] in table && Some(table[keys[p]]) == RowOf(log[p].event, kind)
    {
      CleanRows(log, cuts, kind, keys[p]);
    }
  }
}
