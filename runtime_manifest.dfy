/** The runtime manifest of `saveManifest`: the abstraction manifest,
    re-keyed from named class names to dot-qualified intermediary names
    and stored in a `java.util.Properties` table. */
module RuntimeManifest {
  import opened Text

  /** The part of an Abstractor `ApiClassInfo` this projection reads. */
  datatype ApiClassInfo = ApiClassInfo(apiClassName: string)

  /** The abstraction manifest in its iteration order: named class name
      (slash-separated) and its API class. */
  type AbstractionManifest = seq<(string, ApiClassInfo)>

  /** Success, or the key `getValue` found missing
      (`NoSuchElementException`). */
  datatype Result<T> = Ok(value: T) | MissingKey(key: string)

  /** `name.replace("/", ".")`. */
  function Dotted(name: string): (r: string)
    ensures '/' !in r && |r| == |name|
  {
    ReplaceChar(name, '/', '.')
  }

  /** The `manifest.map { … }` list: one pair per manifest entry, in order,
      or the first named class the intermediary map does not know. */
  function Project(manifest: AbstractionManifest, namedToInt: map<string, string>)
    : (r: Result<seq<(string, string)>>)
    ensures r.Ok? <==> forall i :: 0 <= i < |manifest| ==> manifest[i].0 in namedToInt
    ensures r.Ok? ==> |r.value| == |manifest| && forall i :: 0 <= i < |manifest| ==>
      manifest[i].0 in namedToInt &&
      r.value[i] == (Dotted(namedToInt[manifest[i].0]), manifest[i].1.apiClassName)
    ensures r.MissingKey? ==>
      && r.key !in namedToInt
      && exists i ::
           && 0 <= i < |manifest| && manifest[i].0 == r.key
           && forall j :: 0 <= j < i ==> manifest[j].0 in namedToInt
    decreases |manifest|
  {
    if manifest == [] then Ok([])
    else
      var (named, info) := manifest[0];
      if named !in namedToInt then MissingKey(named)
      else match Project(manifest[1..], namedToInt)
        case Ok(rest) => Ok([(Dotted(namedToInt[named]), info.apiClassName)] + rest)
        case MissingKey(k) => MissingKey(k)
  }

  /** The table after putting every pair in order into `table`: a later
      pair with the same key replaces an earlier one. */
  function Overlay(table: map<string, string>, pairs: seq<(string, string)>): map<string, string>
    decreases |pairs|
  {
    if pairs == [] then table
    else Overlay(table[pairs[0].0 := pairs[0].1], pairs[1..])
  }

  /** The runtime manifest `saveManifest` stores, or its failure. */
  function RuntimeManifestOf(manifest: AbstractionManifest, namedToInt: map<string, string>)
    : Result<map<string, string>>
  {
    match Project(manifest, namedToInt)
    case Ok(pairs) => Ok(Overlay(map[], pairs))
    case MissingKey(k) => MissingKey(k)
  }

  /** A `java.util.Properties` table. */
  class Properties {
    var table: map<string, string>

    constructor ()
      ensures table == map[]
    {
      table := map[];
    }

    /** `putAll` over a list of pairs. */
    method PutAll(pairs: seq<(string, string)>)
      modifies this
      ensures table == Overlay(old(table), pairs)
    {
      ghost var start := table;
      for i := 0 to |pairs|
        invariant Overlay(start, pairs) == Overlay(table, pairs[i..])
      {
        assert pairs[i..][1..] == pairs[i + 1..];
        table := table[pairs[i].0 := pairs[i].1];
      }
    }
  }

  /** `saveManifest` up to the point where the table is written out. */
  method SaveRuntimeManifest(manifest: AbstractionManifest, namedToInt: map<string, string>)
    returns (r: Result<map<string, string>>)
    ensures r == RuntimeManifestOf(manifest, namedToInt)
  {
    var pairs: seq<(string, string)> := [];
    for i := 0 to |manifest|
      invariant forall j :: 0 <= j < i ==> manifest[j].0 in namedToInt
      invariant |pairs| == i
      invariant forall j :: 0 <= j < i ==>
        pairs[j] == (Dotted(namedToInt[manifest[j].0]), manifest[j].1.apiClassName)
    {
      var (named, info) := manifest[i];
      if named !in namedToInt {
        ghost var k := Project(manifest, namedToInt).key;
        ghost var first :| 0 <= first < |manifest| && manifest[first].0 == k &&
          forall j :: 0 <= j < first ==> manifest[j].0 in namedToInt;
        assert first == i;
        return MissingKey(named);
      }
      pairs := pairs + [(Dotted(namedToInt[named]), info.apiClassName)];
    }
    assert pairs == Project(manifest, namedToInt).value;
    var properties := new Properties();
    properties.PutAll(pairs);
    r := Ok(properties.table);
  }

  /** A key of the table is present iff it was there or some pair has it. */
  lemma {:induction false} OverlayKeys(table: map<string, string>, pairs: seq<(string, string)>, k: string)
    ensures k in Overlay(table, pairs) <==> k in table || exists i :: 0 <= i < |pairs| && pairs[i].0 == k
    decreases |pairs|
  {
    if pairs != [] {
      OverlayKeys(table[pairs[0].0 := pairs[0].1], pairs[1..], k);
      if exists i :: 0 <= i < |pairs[1..]| && pairs[1..][i].0 == k {
        var i :| 0 <= i < |pairs[1..]| && pairs[1..][i].0 == k;
        assert pairs[i + 1].0 == k;
      }
      if exists i :: 0 <= i < |pairs| && pairs[i].0 == k {
        var i :| 0 <= i < |pairs| && pairs[i].0 == k;
        if i > 0 {
          assert pairs[1..][i - 1].0 == k;
        }
      }
    }
  }

  /** A key gets the value of the last pair that has it. */
  lemma {:induction false} OverlayLastWins(table: map<string, string>, pairs: seq<(string, string)>, i: nat)
    requires i < |pairs|
    requires forall j :: i < j < |pairs| ==> pairs[j].0 != pairs[i].0
    ensures pairs[i].0 in Overlay(table, pairs)
    ensures Overlay(table, pairs)[pairs[i].0] == pairs[i].1
    decreases |pairs|
  {
    var next := table[pairs[0].0 := pairs[0].1];
    if i == 0 {
      OverlayUntouched(next, pairs[1..], pairs[0].0);
    } else {
      OverlayLastWins(next, pairs[1..], i - 1);
    }
  }

  /** A key no pair has keeps its value. */
  lemma {:induction false} OverlayUntouched(table: map<string, string>, pairs: seq<(string, string)>, k: string)
    requires k in table
    requires forall j :: 0 <= j < |pairs| ==> pairs[j].0 != k
    ensures k in Overlay(table, pairs) && Overlay(table, pairs)[k] == table[k]
    decreases |pairs|
  {
    if pairs != [] {
      OverlayUntouched(table[pairs[0].0 := pairs[0].1], pairs[1..], k);
    }
  }

  /** The projection fails exactly when some named class has no
      intermediary name, and then names the first such class. */
  lemma FailsIffUnresolved(manifest: AbstractionManifest, namedToInt: map<string, string>)
    ensures RuntimeManifestOf(manifest, namedToInt).MissingKey? <==>
      exists i :: 0 <= i < |manifest| && manifest[i].0 !in namedToInt
    ensures RuntimeManifestOf(manifest, namedToInt).MissingKey? ==>
      var k := RuntimeManifestOf(manifest, namedToInt).key;
      && k !in namedToInt
      && exists i ::
           && 0 <= i < |manifest| && manifest[i].0 == k
           && forall j :: 0 <= j < i ==> manifest[j].0 in namedToInt
  {
  }

  /** The keys are exactly the dot-qualified intermediary names of the
      manifest's classes, and none contains "/". */
  lemma RuntimeManifestKeys(manifest: AbstractionManifest, namedToInt: map<string, string>)
    requires RuntimeManifestOf(manifest, namedToInt).Ok?
    ensures var table := RuntimeManifestOf(manifest, namedToInt).value;
      && (forall i :: 0 <= i < |manifest| ==> Dotted(namedToInt[manifest[i].0]) in table)
      && (forall k :: k in table ==> '/' !in k && exists i :: 0 <= i < |manifest| && Dotted(namedToInt[manifest[i].0]) == k)
  {
    var pairs := Project(manifest, namedToInt).value;
    var table := Overlay(map[], pairs);
    forall i | 0 <= i < |manifest| ensures Dotted(namedToInt[manifest[i].0]) in table {
      OverlayKeys(map[], pairs, pairs[i].0);
    }
    forall k | k in table
      ensures '/' !in k && exists i :: 0 <= i < |manifest| && Dotted(namedToInt[manifest[i].0]) == k
    {
      OverlayKeys(map[], pairs, k);
      var i :| 0 <= i < |pairs| && pairs[i].0 == k;
    }
  }

  /** Each class's key maps to its API class name, unless a later class of
      the manifest has the same dot-qualified intermediary name. */
  lemma RuntimeManifestValues(manifest: AbstractionManifest, namedToInt: map<string, string>, i: nat)
    requires RuntimeManifestOf(manifest, namedToInt).Ok?
    requires i < |manifest|
    requires forall j :: i < j < |manifest| ==>
      Dotted(namedToInt[manifest[j].0]) != Dotted(namedToInt[manifest[i].0])
    ensures var table := RuntimeManifestOf(manifest, namedToInt).value;
      var key := Dotted(namedToInt[manifest[i].0]);
      key in table && table[key] == manifest[i].1.apiClassName
  {
    var pairs := Project(manifest, namedToInt).value;
    OverlayLastWins(map[], pairs, i);
  }

  /** Worked example: named `World`, intermediary `class_1`. */
  lemma WorldExample()
    ensures RuntimeManifestOf([("World", ApiClassInfo("api/v1_0_0/World"))], map["World" := "class_1"])
         == Ok(map["class_1" := "api/v1_0_0/World"])
  {
    assert Dotted("class_1") == "class_1";
  }
}
