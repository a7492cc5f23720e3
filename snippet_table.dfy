/** The `generatedSnippets` table: four fixed entries, then one entry per
    resource type under `Halloumi_<type>`, where a later insertion under a key
    that is already present replaces its value and keeps its position. */
module SnippetTable {
  import opened Schema
  import opened JsBuiltins
  import opened SnippetBody

  /** One value of the table: `{prefix, body, description}`. */
  datatype Snippet = Snippet(prefix: string, body: seq<string>, description: string)

  /** A JavaScript object from snippet names to snippets: `keys` is the
      enumeration order, `entries` the values. */
  datatype Dict = Dict(keys: seq<string>, entries: map<string, Snippet>)

  /** The key order lists every key of `entries` once and nothing else. */
  ghost predicate WellFormed(d: Dict)
  {
    && (forall i, j :: 0 <= i < j < |d.keys| ==> d.keys[i] != d.keys[j])
    && (forall k :: k in d.entries <==> k in d.keys)
  }

  /** `d[k] = v`: an existing key keeps its place, a new key goes last (InsertKeepsOthers). */
  function Insert(d: Dict, k: string, v: Snippet): Dict
  {
    Dict(if k in d.entries then d.keys else d.keys + [k], d.entries[k := v])
  }

  /** An insertion sets its own key, leaves every other key alone and keeps
      the key order well formed, with the old order as a prefix. */
  lemma InsertKeepsOthers(d: Dict, k: string, v: Snippet)
    ensures var r := Insert(d, k, v);
      && (WellFormed(d) ==> WellFormed(r))
      && |d.keys| <= |r.keys| <= |d.keys| + 1 && r.keys[..|d.keys|] == d.keys
      && k in r.entries && r.entries[k] == v
      && (forall k' :: k' != k ==> (k' in r.entries <==> k' in d.entries))
      && (forall k' :: k' != k && k' in d.entries ==> r.entries[k'] == d.entries[k'])
  {
  }

  /** The insertions of `ps`, one after the other. */
  function InsertAll(d: Dict, ps: seq<(string, Snippet)>): Dict
  {
    if |ps| == 0 then d
    else
      var last := ps[|ps| - 1];
      Insert(InsertAll(d, ps[..|ps| - 1]), last.0, last.1)
  }

  /** One more insertion extends the prefix of `ps` that has been inserted. */
  lemma InsertAllStep(d: Dict, ps: seq<(string, Snippet)>, i: nat)
    requires i < |ps|
    ensures InsertAll(d, ps[..i + 1]) == Insert(InsertAll(d, ps[..i]), ps[i].0, ps[i].1)
  {
    assert ps[..i + 1][..i] == ps[..i];
  }

  /** The keys inserted by `ps`. */
  function KeysOf(ps: seq<(string, Snippet)>): set<string>
  {
    set p | p in ps :: p.0
  }

  /** Inserting keeps the key order well formed; the old key order stays a prefix. */
  lemma {:induction false} InsertAllWellFormed(d: Dict, ps: seq<(string, Snippet)>)
    requires WellFormed(d)
    ensures WellFormed(InsertAll(d, ps))
    ensures |d.keys| <= |InsertAll(d, ps).keys| && InsertAll(d, ps).keys[..|d.keys|] == d.keys
  {
    if |ps| > 0 {
      InsertAllWellFormed(d, ps[..|ps| - 1]);
    }
  }

  /** After the insertions, the keys are the old keys plus the inserted ones. */
  lemma {:induction false} InsertAllKeys(d: Dict, ps: seq<(string, Snippet)>)
    ensures InsertAll(d, ps).entries.Keys == d.entries.Keys + KeysOf(ps)
  {
    if |ps| > 0 {
      var front := ps[..|ps| - 1];
      InsertAllKeys(d, front);
      assert ps == front + [ps[|ps| - 1]];
      assert KeysOf(ps) == KeysOf(front) + {ps[|ps| - 1].0};
    }
  }

  /** Later insertions overwrite: a key holds the value of its last insertion. */
  lemma {:induction false} InsertAllLatest(d: Dict, ps: seq<(string, Snippet)>, i: nat)
    requires i < |ps|
    requires forall j :: i < j < |ps| ==> ps[j].0 != ps[i].0
    ensures ps[i].0 in InsertAll(d, ps).entries && InsertAll(d, ps).entries[ps[i].0] == ps[i].1
  {
    if i < |ps| - 1 {
      InsertAllLatest(d, ps[..|ps| - 1], i);
    }
  }

  /** A key that no insertion names keeps its old value. */
  lemma {:induction false} InsertAllUntouched(d: Dict, ps: seq<(string, Snippet)>, k: string)
    requires k in d.entries
    requires forall p :: p in ps ==> p.0 != k
    ensures k in InsertAll(d, ps).entries && InsertAll(d, ps).entries[k] == d.entries[k]
  {
    if |ps| > 0 {
      var front := ps[..|ps| - 1];
      assert forall p :: p in front ==> p in ps;
      InsertAllUntouched(d, front, k);
      assert ps[|ps| - 1] in ps;
    }
  }

  // ---------------------------------------------------------------------
  // The four fixed entries

  const EnvironmentPropertyKey := "Halloumi_environment_property"
  const TemplatePropertyKey := "Halloumi_template_property"
  const OutputKey := "Halloumi_output"
  const VirtualResourceKey := "Halloumi_VirtualResource"

  const EnvironmentProperty := Snippet(
    "Halloumi environment property",
    [ "property :property_name,",
      "         env: :ENVIRONMENT_VARIABLE_NAME,",
      "         required: true,",
      "         default: \"<default value>\"" ],
    "An Halloumi property using a value from your .env.* files")

  const TemplateProperty := Snippet(
    "Halloumi template property",
    [ "property :property_name,",
      "         env: :ENVIRONMENT_VARIABLE_NAME,",
      "         template: File.expand_path(",
      "           \"<relative path to template>\"",
      "           __FILE__",
      "         ),",
      "         required: true" ],
    "An Halloumi property using a template to load it's value")

  const Output := Snippet(
    "Halloumi output",
    [ "output(:resource_name, :output_name) { |r| ... }" ],
    "An Halloumi resource output")

  const VirtualResource := Snippet(
    "VirtualResource",
    [ "# @!attribute [rw] virtual_resources",
      "# @return [Array<Halloumi::VirtualResource>] Virtual Resource",
      "resource :virtual_resources,",
      "         type: Halloumi::VirtualResource do |r|",
      "",
      "\tr.parameter { ... } # to be able to +Ref+ the value of a CloudFormation template parameter",
      "\tr.ref { ... } # to be able to imitate referencing a resource ",
      "\tr.property { ... } # to define properties on the virtual resource",
      "end" ],
    "An Halloumi virtual resource")

  /** The four fixed insertions, in source order. */
  function StaticSnippets(): seq<(string, Snippet)>
  {
    [ (EnvironmentPropertyKey, EnvironmentProperty),
      (TemplatePropertyKey, TemplateProperty),
      (OutputKey, Output),
      (VirtualResourceKey, VirtualResource) ]
  }

  const Empty := Dict([], map[])

  /** Inserting a list of four is the four insertions, one after the other. */
  lemma InsertFour(d: Dict, k1: string, k2: string, k3: string, k4: string, v1: Snippet, v2: Snippet, v3: Snippet, v4: Snippet)
    ensures InsertAll(d, [(k1, v1), (k2, v2), (k3, v3), (k4, v4)])
      == Insert(Insert(Insert(Insert(d, k1, v1), k2, v2), k3, v3), k4, v4)
  {
    var ps := [(k1, v1), (k2, v2), (k3, v3), (k4, v4)];
    var p3, p2, p1 := ps[..3], ps[..2], ps[..1];
    assert p1[..0] == [];
    assert InsertAll(d, p1) == Insert(d, k1, v1);
    assert p2[..1] == p1;
    assert InsertAll(d, p2) == Insert(InsertAll(d, p1), k2, v2);
    assert p3[..2] == p2;
    assert InsertAll(d, p3) == Insert(InsertAll(d, p2), k3, v3);
  }

  /** Four insertions under distinct keys into an empty object give those
      four entries in insertion order. */
  lemma InsertFourDistinct(k1: string, k2: string, k3: string, k4: string, v1: Snippet, v2: Snippet, v3: Snippet, v4: Snippet)
    requires k1 != k2 && k1 != k3 && k1 != k4 && k2 != k3 && k2 != k4 && k3 != k4
    ensures InsertAll(Empty, [(k1, v1), (k2, v2), (k3, v3), (k4, v4)])
      == Dict([k1, k2, k3, k4], map[k1 := v1, k2 := v2, k3 := v3, k4 := v4])
  {
    InsertFour(Empty, k1, k2, k3, k4, v1, v2, v3, v4);
  }

  /** The fixed keys, in insertion order. */
  const StaticKeys := [EnvironmentPropertyKey, TemplatePropertyKey, OutputKey, VirtualResourceKey]

  /** The table holding exactly the four fixed entries. */
  function StaticBase(): Dict
  {
    Dict(StaticKeys,
      map[EnvironmentPropertyKey := EnvironmentProperty, TemplatePropertyKey := TemplateProperty,
          OutputKey := Output, VirtualResourceKey := VirtualResource])
  }

  /** The four fixed assignments on an empty object give exactly the four
      fixed entries, in order: their keys are pairwise distinct. */
  lemma StaticTable()
    ensures InsertAll(Empty, StaticSnippets()) == StaticBase()
    ensures WellFormed(StaticBase())
  {
    assert |EnvironmentPropertyKey| == 29 && |TemplatePropertyKey| == 26 && |OutputKey| == 15 && |VirtualResourceKey| == 24;
    InsertFourDistinct(EnvironmentPropertyKey, TemplatePropertyKey, OutputKey, VirtualResourceKey,
      EnvironmentProperty, TemplateProperty, Output, VirtualResource);
  }

  // ---------------------------------------------------------------------
  // One entry per resource type

  /** The table key of a resource type: `Halloumi_${resourceType}`. */
  function ResourceKey(resourceType: string): string
  {
    "Halloumi_" + resourceType
  }

  /** Distinct resource types get distinct keys. */
  lemma ResourceKeyInjective(a: string, b: string)
    requires ResourceKey(a) == ResourceKey(b)
    ensures a == b
  {
    assert a == ResourceKey(a)[9..];
    assert b == ResourceKey(b)[9..];
  }

  /** The snippet's `prefix`: `resourceType.replace('AWS::', '')`. */
  function TriggerText(resourceType: string): string
  {
    Replace(resourceType, "AWS::", "")
  }

  /** The entry generated for one resource type. */
  function SnippetFor(cc: ChangeCase, resourceType: string, res: ResourceData): Snippet
  {
    Snippet(
      TriggerText(resourceType),
      Body(cc, resourceType, res),
      "The " + resourceType + " basic resource")
  }

  /** The trigger text drops the first `AWS::` of the resource type and nothing else. */
  lemma PrefixStripsFirstAws(resourceType: string)
    ensures (forall i: nat :: !OccursAt(resourceType, "AWS::", i)) ==> TriggerText(resourceType) == resourceType
    ensures |resourceType| >= 5 && resourceType[..5] == "AWS::" ==> TriggerText(resourceType) == resourceType[5..]
    ensures forall i: nat :: IsFirstOccurrence(resourceType, "AWS::", i) ==>
      TriggerText(resourceType) == resourceType[..i] + resourceType[i + 5..]
  {
    if |resourceType| >= 5 && resourceType[..5] == "AWS::" {
      assert IsFirstOccurrence(resourceType, "AWS::", 0);
    }
  }

  /** The insertions the resource loop performs, in the order of `ResourceTypes`. */
  function ResourceSnippets(cc: ChangeCase, rts: Table<ResourceData>): (ps: seq<(string, Snippet)>)
    ensures |ps| == |rts|
  {
    seq(|rts|, i requires 0 <= i < |rts| => (ResourceKey(rts[i].0), SnippetFor(cc, rts[i].0, rts[i].1)))
  }

  /** The table written to the snippets file. */
  function FinalTable(cc: ChangeCase, rts: Table<ResourceData>): Dict
  {
    InsertAll(StaticBase(), ResourceSnippets(cc, rts))
  }

  /** The resource loop inserts exactly the keys of the resource types. */
  lemma ResourceSnippetKeys(cc: ChangeCase, rts: Table<ResourceData>)
    ensures KeysOf(ResourceSnippets(cc, rts)) == set rt | rt in rts :: ResourceKey(rt.0)
  {
    var ps := ResourceSnippets(cc, rts);
    forall k | k in KeysOf(ps) ensures k in set rt | rt in rts :: ResourceKey(rt.0) {
      var p :| p in ps && p.0 == k;
      var i :| 0 <= i < |ps| && ps[i] == p;
      assert rts[i] in rts;
    }
    forall k | k in set rt | rt in rts :: ResourceKey(rt.0) ensures k in KeysOf(ps) {
      var rt :| rt in rts && ResourceKey(rt.0) == k;
      var i :| 0 <= i < |rts| && rts[i] == rt;
      assert ps[i] in ps;
    }
  }

  /** The final table holds the four fixed keys first and one key per
      resource type, and nothing else. */
  lemma FinalTableKeys(cc: ChangeCase, rts: Table<ResourceData>)
    ensures WellFormed(FinalTable(cc, rts))
    ensures |FinalTable(cc, rts).keys| >= 4
    ensures FinalTable(cc, rts).keys[..4] == StaticKeys
    ensures FinalTable(cc, rts).entries.Keys
      == {EnvironmentPropertyKey, TemplatePropertyKey, OutputKey, VirtualResourceKey}
         + (set rt | rt in rts :: ResourceKey(rt.0))
  {
    var ps := ResourceSnippets(cc, rts);
    StaticTable();
    var base := StaticBase();
    assert WellFormed(base);
    InsertAllWellFormed(base, ps);
    InsertAllKeys(base, ps);
    ResourceSnippetKeys(cc, rts);
  }

  /** Every resource type's key holds the snippet generated for that resource type. */
  lemma FinalTableResource(cc: ChangeCase, rts: Table<ResourceData>, i: nat)
    requires i < |rts|
    ensures ResourceKey(rts[i].0) in FinalTable(cc, rts).entries
    ensures FinalTable(cc, rts).entries[ResourceKey(rts[i].0)] == SnippetFor(cc, rts[i].0, rts[i].1)
  {
    var ps := ResourceSnippets(cc, rts);
    forall j | i < j < |ps| ensures ps[j].0 != ps[i].0 {
      if ps[j].0 == ps[i].0 {
        ResourceKeyInjective(rts[j].0, rts[i].0);
        assert false;
      }
    }
    InsertAllLatest(StaticBase(), ps, i);
  }

  /** A fixed entry survives unless some resource type's key coincides with it. */
  lemma FinalTableStatic(cc: ChangeCase, rts: Table<ResourceData>, k: string)
    requires k in StaticKeys
    requires forall rt :: rt in rts ==> ResourceKey(rt.0) != k
    ensures k in FinalTable(cc, rts).entries
    ensures FinalTable(cc, rts).entries[k] == StaticBase().entries[k]
  {
    var ps := ResourceSnippets(cc, rts);
    StaticTable();
    forall p | p in ps ensures p.0 != k {
      var i :| 0 <= i < |ps| && ps[i] == p;
      assert rts[i] in rts;
    }
    InsertAllUntouched(StaticBase(), ps, k);
  }

  // ---------------------------------------------------------------------
  // The table object and the generator

  /** The global `generatedSnippets` object. */
  class GeneratedSnippets {
    var keys: seq<string>
    var entries: map<string, Snippet>

    function Contents(): Dict
      reads this
    {
      Dict(keys, entries)
    }

    ghost predicate Valid()
      reads this
    {
      WellFormed(Contents())
    }

    /** `let generatedSnippets = {}`. */
    constructor ()
      ensures Valid() && Contents() == Empty
    {
      keys := [];
      entries := map[];
    }

    /** `generatedSnippets[key] = snippet`. */
    method Put(key: string, snippet: Snippet)
      requires Valid()
      modifies this
      ensures Valid()
      ensures Contents() == Insert(old(Contents()), key, snippet)
    {
      if key !in entries {
        keys := keys + [key];
      }
      entries := entries[key := snippet];
    }

    /** The four fixed assignments at the top of the script. */
    method AddStaticSnippets()
      requires Valid()
      modifies this
      ensures Valid()
      ensures Contents() == InsertAll(old(Contents()), StaticSnippets())
    {
      ghost var d := Contents();
      InsertFour(d, EnvironmentPropertyKey, TemplatePropertyKey, OutputKey, VirtualResourceKey,
        EnvironmentProperty, TemplateProperty, Output, VirtualResource);
      Put(EnvironmentPropertyKey, EnvironmentProperty);
      Put(TemplatePropertyKey, TemplateProperty);
      Put(OutputKey, Output);
      Put(VirtualResourceKey, VirtualResource);
    }
  }

  /** The whole run once the schema is parsed: the fixed entries, then the
      resource loop over `ResourceTypes` in key order. */
  method Generate(cc: ChangeCase, rts: Table<ResourceData>) returns (table: GeneratedSnippets)
    ensures fresh(table) && table.Valid()
    ensures table.Contents() == FinalTable(cc, rts)
  {
    table := new GeneratedSnippets();
    table.AddStaticSnippets();
    StaticTable();
    ghost var ps := ResourceSnippets(cc, rts);
    for i := 0 to |rts|
      invariant table.Valid()
      invariant table.Contents() == InsertAll(StaticBase(), ps[..i])
    {
      var resourceType := rts[i].0;
      var body := BuildBody(cc, resourceType, rts[i].1);
      var snippet := Snippet(Replace(resourceType, "AWS::", ""), body, "The " + resourceType + " basic resource");
      assert ps[i] == (ResourceKey(resourceType), snippet);
      InsertAllStep(StaticBase(), ps, i);
      table.Put(ResourceKey(resourceType), snippet);
    }
    assert ps[..|rts|] == ps;
  }
}
