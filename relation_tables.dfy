/** The two relation tables of `createAbstractionMetadata`: each record of
    `iinterfaces.properties` / `baseinterfaces.properties` maps an
    interface to the comma-separated list of its members or bases. */
module RelationTables {
  import opened Text

  /** One parsed `key=value` record, in file order. */
  type Record = (string, string)

  /** The table the loop leaves behind: each key maps to its value split
      on ","; a later record with the same key replaces an earlier one. */
  function RelationMap(records: seq<Record>): (m: map<string, seq<string>>)
    ensures forall k :: k in m ==> |m[k]| >= 1
    decreases |records|
  {
    if records == [] then map[]
    else
      var last := records[|records| - 1];
      RelationMap(records[..|records| - 1])[last.0 := Split(last.1, ',')]
  }

  /** Fills a fresh hash map record by record, as the `forEach` does. */
  method BuildRelationMap(records: seq<Record>) returns (m: map<string, seq<string>>)
    ensures m == RelationMap(records)
  {
    m := map[];
    for i := 0 to |records|
      invariant m == RelationMap(records[..i])
    {
      var (key, value) := records[i];
      assert records[..i + 1][..i] == records[..i];
      m := m[key := Split(value, ',')];
    }
    assert records[..|records|] == records;
  }

  /** Exactly the keys that occur in some record are present. */
  lemma {:induction false} RelationMapKeys(records: seq<Record>, k: string)
    ensures k in RelationMap(records) <==> exists i :: 0 <= i < |records| && records[i].0 == k
    decreases |records|
  {
    if records != [] {
      var init := records[..|records| - 1];
      RelationMapKeys(init, k);
      if k in RelationMap(init) {
        var i :| 0 <= i < |init| && init[i].0 == k;
        assert records[i].0 == k;
      }
      if exists i :: 0 <= i < |records| && records[i].0 == k {
        var i :| 0 <= i < |records| && records[i].0 == k;
        if i < |init| {
          assert init[i].0 == k;
        }
      }
    }
  }

  /** A key maps to the split of the value of its last record. */
  lemma {:induction false} RelationMapLastWins(records: seq<Record>, i: nat)
    requires i < |records|
    requires forall j :: i < j < |records| ==> records[j].0 != records[i].0
    ensures records[i].0 in RelationMap(records)
    ensures RelationMap(records)[records[i].0] == Split(records[i].1, ',')
    decreases |records|
  {
    if i < |records| - 1 {
      var init := records[..|records| - 1];
      assert init[i] == records[i];
      RelationMapLastWins(init, i);
    }
  }

  /** Joining a key's list with "," gives back the value as it was written. */
  lemma RelationMapJoin(records: seq<Record>, i: nat)
    requires i < |records|
    requires forall j :: i < j < |records| ==> records[j].0 != records[i].0
    ensures records[i].0 in RelationMap(records)
    ensures Join(RelationMap(records)[records[i].0], ',') == records[i].1
  {
    RelationMapLastWins(records, i);
    JoinSplit(records[i].1, ',');
  }
}
