/** The body of the snippet generated for one resource type: six header
    lines, a "Required properties" section, an "Other properties" section and
    a closing `end`, with one line per property annotated by its comments. */
module SnippetBody {
  import opened Schema
  import opened JsBuiltins

  /** The two `change-case` / `String` operations the generator applies to
      names. Their definitions live in a foreign library and in the Unicode
      case tables, so the model takes them as given functions. */
  datatype ChangeCase = ChangeCase(snake: string -> string, lower: string -> string)

  const CanHaveDuplicates := "Can have duplicates"
  const TriggersReplacement := "Change triggers replacement"
  const RequiredHeading := "\t# Required properties"
  const OtherHeading := "\t# Other properties"
  const End := "end"

  /** A property record as `propertyData`: the association-list entry. */
  type Property = (string, PropertyData)

  // ---------------------------------------------------------------------
  // Property comments

  /** The annotations listed after a property line. */
  function Comments(p: PropertyData): (c: seq<string>)
    ensures |c| <= 2
    ensures CanHaveDuplicates in c <==> p.DuplicatesAllowed == Some(true)
    ensures TriggersReplacement in c <==> p.UpdateType == Some("Immutable")
    ensures forall i :: 0 <= i < |c| ==> c[i] == CanHaveDuplicates || c[i] == TriggersReplacement
    ensures |c| == 2 ==> c[0] == CanHaveDuplicates && c[1] == TriggersReplacement
  {
    (if p.DuplicatesAllowed == Some(true) then [CanHaveDuplicates] else [])
    + (if p.UpdateType == Some("Immutable") then [TriggersReplacement] else [])
  }

  /** `generatePropertyComments`: pushes the annotations onto a fresh list. */
  method GeneratePropertyComments(p: PropertyData) returns (c: seq<string>)
    ensures c == Comments(p)
  {
    c := [];
    if p.DuplicatesAllowed == Some(true) {
      c := c + [CanHaveDuplicates];
    }
    if p.UpdateType == Some("Immutable") {
      c := c + [TriggersReplacement];
    }
  }

  // ---------------------------------------------------------------------
  // Property lines

  /** The declaration part of a property line, before any comment. */
  function Declaration(cc: ChangeCase, name: string): string
  {
    "\tr.property(:" + cc.lower(cc.snake(name)) + ") { ... }"
  }

  /** The line emitted for one property. */
  function PropertyLine(cc: ChangeCase, prop: Property): string
  {
    var c := Comments(prop.1);
    if |c| > 0 then Declaration(cc, prop.0) + " # " + Join(c, " / ") else Declaration(cc, prop.0)
  }

  /** The four shapes a property line can take, one per combination of the two annotations. */
  lemma PropertyLineCases(cc: ChangeCase, prop: Property)
    ensures var d, dup, imm := Declaration(cc, prop.0),
                               prop.1.DuplicatesAllowed == Some(true), prop.1.UpdateType == Some("Immutable");
      PropertyLine(cc, prop) ==
        if dup && imm then d + " # " + CanHaveDuplicates + " / " + TriggersReplacement
        else if dup then d + " # " + CanHaveDuplicates
        else if imm then d + " # " + TriggersReplacement
        else d
  {
    JoinSmall(CanHaveDuplicates, TriggersReplacement, " / ");
    JoinSmall(TriggersReplacement, TriggersReplacement, " / ");
  }

  /** Every property line starts with a tab, so it can never be mistaken for a
      header line or for `end`. */
  lemma PropertyLineStartsWithTab(cc: ChangeCase, prop: Property)
    ensures |PropertyLine(cc, prop)| > 0 && PropertyLine(cc, prop)[0] == '\t'
  {
    var d := Declaration(cc, prop.0);
    assert d[0] == '\t';
    var c := Comments(prop.1);
    if |c| > 0 {
      assert (d + " # " + Join(c, " / "))[0] == d[0];
    }
  }

  /** One line per property of `group`, in group order. */
  function Lines(cc: ChangeCase, group: seq<Property>): (lines: seq<string>)
    ensures |lines| == |group|
  {
    seq(|group|, k requires 0 <= k < |group| => PropertyLine(cc, group[k]))
  }

  /** The body of one `for ... in` loop over a property group: appends one line per property. */
  method AppendPropertyLines(cc: ChangeCase, body: seq<string>, group: seq<Property>) returns (out: seq<string>)
    ensures out == body + Lines(cc, group)
  {
    out := body;
    var i := 0;
    while i < |group|
      invariant 0 <= i <= |group|
      invariant out == body + Lines(cc, group)[..i]
    {
      var c := GeneratePropertyComments(group[i].1);
      var s := "\tr.property(:" + cc.lower(cc.snake(group[i].0)) + ") { ... }";
      if |c| > 0 {
        s := s + " # " + Join(c, " / ");
      }
      assert s == Lines(cc, group)[i];
      out := out + [s];
      assert Lines(cc, group)[..i + 1] == Lines(cc, group)[..i] + [Lines(cc, group)[i]];
      i := i + 1;
    }
    assert Lines(cc, group)[..i] == Lines(cc, group);
  }

  // ---------------------------------------------------------------------
  // Partition into required and other properties

  /** The strict test `propertyData['Required'] === true`. */
  predicate IsRequired(p: PropertyData)
  {
    p.Required == Some(true)
  }

  /** The properties of `t` that go to the required group (`required`) or to
      the other group (`!required`), in their order in `t`. */
  function Group(t: seq<Property>, required: bool): (g: seq<Property>)
    ensures |g| <= |t|
  {
    if |t| == 0 then []
    else
      var g := Group(t[..|t| - 1], required);
      if IsRequired(t[|t| - 1].1) == required then g + [t[|t| - 1]] else g
  }

  /** The loop that fills `requiredProperties` and `otherProperties`. */
  method Partition(props: Table<PropertyData>) returns (required: seq<Property>, other: seq<Property>)
    ensures required == Group(props, true)
    ensures other == Group(props, false)
  {
    required, other := [], [];
    for i := 0 to |props|
      invariant required == Group(props[..i], true)
      invariant other == Group(props[..i], false)
    {
      assert props[..i + 1][..i] == props[..i];
      if props[i].1.Required == Some(true) {
        required := required + [props[i]];
      } else {
        other := other + [props[i]];
      }
    }
    assert props[..|props|] == props;
  }

  /** A property is in the required group iff `Required === true`, and in the
      other group iff not; so each property lands in exactly one group. */
  lemma {:induction false} GroupMembers(t: seq<Property>, required: bool, x: Property)
    ensures x in Group(t, required) <==> x in t && IsRequired(x.1) == required
  {
    if |t| > 0 {
      GroupMembers(t[..|t| - 1], required, x);
      assert t == t[..|t| - 1] + [t[|t| - 1]];
    }
  }

  /** The two groups together hold exactly the properties of `t`, with multiplicity. */
  lemma {:induction false} PartitionTotal(t: seq<Property>)
    ensures multiset(Group(t, true)) + multiset(Group(t, false)) == multiset(t)
    ensures |Group(t, true)| + |Group(t, false)| == |t|
  {
    if |t| > 0 {
      PartitionTotal(t[..|t| - 1]);
      assert t == t[..|t| - 1] + [t[|t| - 1]];
    }
  }

  /** Stability: a group is a subsequence of `t`. The returned `idx` maps each
      position of the group to its position in `t`, strictly increasing. */
  lemma {:induction false} GroupStable(t: seq<Property>, required: bool) returns (idx: seq<nat>)
    ensures |idx| == |Group(t, required)|
    ensures forall k :: 0 <= k < |idx| ==> idx[k] < |t| && Group(t, required)[k] == t[idx[k]]
    ensures forall k, l :: 0 <= k < l < |idx| ==> idx[k] < idx[l]
  {
    if |t| == 0 {
      idx := [];
    } else {
      var front := t[..|t| - 1];
      var i0 := GroupStable(front, required);
      if IsRequired(t[|t| - 1].1) == required {
        idx := i0 + [|t| - 1];
      } else {
        idx := i0;
      }
    }
  }

  /** Each group of a JavaScript object is again a JavaScript object (its keys stay distinct). */
  lemma GroupDistinct(t: Table<PropertyData>, required: bool)
    ensures DistinctKeys(Group(t, required))
  {
    var idx := GroupStable(t, required);
    var g := Group(t, required);
    forall k, l | 0 <= k < l < |g| ensures g[k].0 != g[l].0 {
      assert idx[k] < idx[l];
    }
  }

  // ---------------------------------------------------------------------
  // The body

  /** The six lines every body starts with. */
  function Header(cc: ChangeCase, resourceType: string, documentation: Option<string>): (h: seq<string>)
    ensures |h| == 6
  {
    [ "# @!attribute [rw] " + cc.snake(resourceType) + "s",
      "# @return [Array<Halloumi::" + resourceType + ">] " + cc.snake(resourceType) + "s",
      "# @see: " + AsText(documentation),
      "resource :" + cc.snake(resourceType) + "s,",
      "         type: Halloumi::" + resourceType + ",",
      "         amount: -> { amount } do |r|\n" ]
  }

  /** A header, the two sections built from the required lines `rl` and the
      other lines `ol`, and `end`. Both sections are gated on the required
      group being non-empty, as the source's two `if`s are. */
  function Assemble(header: seq<string>, rl: seq<string>, ol: seq<string>): seq<string>
  {
    header
    + (if |rl| > 0 then [RequiredHeading] + rl + [""] else [])
    + (if |rl| > 0 then [OtherHeading] + ol else [])
    + [End]
  }

  /** The body built for `resourceType`. */
  function Body(cc: ChangeCase, resourceType: string, res: ResourceData): seq<string>
  {
    Assemble(Header(cc, resourceType, res.Documentation),
      Lines(cc, Group(res.Properties, true)), Lines(cc, Group(res.Properties, false)))
  }

  /** The loop body of the resource loop up to the table insertion: pushes
      the header, partitions the properties, pushes both sections and `end`. */
  method BuildBody(cc: ChangeCase, resourceType: string, res: ResourceData) returns (body: seq<string>)
    ensures body == Body(cc, resourceType, res)
  {
    body := [];
    body := body + ["# @!attribute [rw] " + cc.snake(resourceType) + "s"];
    body := body + ["# @return [Array<Halloumi::" + resourceType + ">] " + cc.snake(resourceType) + "s"];
    body := body + ["# @see: " + AsText(res.Documentation)];
    body := body + ["resource :" + cc.snake(resourceType) + "s,"];
    body := body + ["         type: Halloumi::" + resourceType + ","];
    body := body + ["         amount: -> { amount } do |r|\n"];
    ghost var header := body;

    var required, other := Partition(res.Properties);

    if |required| > 0 {
      body := body + [RequiredHeading];
      body := AppendPropertyLines(cc, body, required);
      body := body + [""];
    }
    ghost var withRequired := body;

    if |required| > 0 {
      body := body + [OtherHeading];
      body := AppendPropertyLines(cc, body, other);
    }
    body := body + [End];

    assert header == Header(cc, resourceType, res.Documentation);
    assert withRequired == header + (if |required| > 0 then [RequiredHeading] + Lines(cc, required) + [""] else []);
    assert body == Assemble(header, Lines(cc, required), Lines(cc, other));
  }

  /** The parts of an assembled body, by position. */
  lemma AssembleLayout(h: seq<string>, rl: seq<string>, ol: seq<string>)
    requires |h| == 6
    ensures var body := Assemble(h, rl, ol);
      && |body| == 6 + (if |rl| > 0 then |rl| + 2 + 1 + |ol| else 0) + 1
      && body[..6] == h
      && body[|body| - 1] == End
      && (|rl| > 0 ==>
           && body[6] == RequiredHeading
           && body[7..7 + |rl|] == rl
           && body[7 + |rl|] == "" && body[8 + |rl|] == OtherHeading
           && body[9 + |rl|..|body| - 1] == ol)
      && (|rl| == 0 ==> body == h + [End])
  {
    var body := Assemble(h, rl, ol);
    if |rl| > 0 {
      assert body == h + [RequiredHeading] + rl + [""] + [OtherHeading] + ol + [End];
      assert body[7..7 + |rl|] == rl;
      assert body[9 + |rl|..|body| - 1] == ol;
    } else {
      assert body == h + [End];
    }
  }

  /** The length of a body follows from the sizes of the two groups. */
  lemma BodyLength(cc: ChangeCase, resourceType: string, res: ResourceData)
    ensures var r, o := Group(res.Properties, true), Group(res.Properties, false);
      |Body(cc, resourceType, res)| == 6 + (if |r| > 0 then |r| + 2 + 1 + |o| else 0) + 1
  {
    var r, o := Group(res.Properties, true), Group(res.Properties, false);
    AssembleLayout(Header(cc, resourceType, res.Documentation), Lines(cc, r), Lines(cc, o));
  }

  /** Every body starts with the six header lines and ends with `end`. */
  lemma BodyFrame(cc: ChangeCase, resourceType: string, res: ResourceData)
    ensures var body := Body(cc, resourceType, res);
      |body| >= 7 && body[..6] == Header(cc, resourceType, res.Documentation) && body[|body| - 1] == End
  {
    var r, o := Group(res.Properties, true), Group(res.Properties, false);
    AssembleLayout(Header(cc, resourceType, res.Documentation), Lines(cc, r), Lines(cc, o));
  }

  /** With some required property, the header is followed by the required
      heading, the lines of the required group in group order, and a blank line. */
  lemma RequiredSection(cc: ChangeCase, resourceType: string, res: ResourceData)
    requires |Group(res.Properties, true)| > 0
    ensures var body, r := Body(cc, resourceType, res), Group(res.Properties, true);
      && |body| > 8 + |r|
      && body[6] == RequiredHeading
      && body[7..7 + |r|] == Lines(cc, r)
      && body[7 + |r|] == ""
  {
    var r, o := Group(res.Properties, true), Group(res.Properties, false);
    AssembleLayout(Header(cc, resourceType, res.Documentation), Lines(cc, r), Lines(cc, o));
  }

  /** With some required property, the blank line is followed by the other
      heading and the lines of the other group in group order, then `end`. */
  lemma OtherSection(cc: ChangeCase, resourceType: string, res: ResourceData)
    requires |Group(res.Properties, true)| > 0
    ensures var body, r, o := Body(cc, resourceType, res), Group(res.Properties, true), Group(res.Properties, false);
      && |body| == 9 + |r| + |o| + 1
      && body[8 + |r|] == OtherHeading
      && body[9 + |r|..|body| - 1] == Lines(cc, o)
  {
    var r, o := Group(res.Properties, true), Group(res.Properties, false);
    AssembleLayout(Header(cc, resourceType, res.Documentation), Lines(cc, r), Lines(cc, o));
  }

  /** In an assembled body with a non-empty required part, the `k`-th
      required line comes before the `l`-th other line. */
  lemma AssembleOrder(h: seq<string>, rl: seq<string>, ol: seq<string>, k: nat, l: nat)
    returns (i: nat, j: nat)
    requires |h| == 6 && k < |rl| && l < |ol|
    ensures i < j < |Assemble(h, rl, ol)|
    ensures Assemble(h, rl, ol)[i] == rl[k] && Assemble(h, rl, ol)[j] == ol[l]
  {
    AssembleLayout(h, rl, ol);
    var body := Assemble(h, rl, ol);
    i, j := 7 + k, 9 + |rl| + l;
    assert body[i] == body[7..7 + |rl|][k];
    assert body[j] == body[9 + |rl|..|body| - 1][l];
  }

  /** Every required line comes before every other line: the `k`-th required
      line sits at `i` and the `l`-th other line at `j`, with `i < j`. */
  lemma RequiredBeforeOther(cc: ChangeCase, resourceType: string, res: ResourceData, k: nat, l: nat)
    returns (i: nat, j: nat)
    requires k < |Group(res.Properties, true)| && l < |Group(res.Properties, false)|
    ensures i < j < |Body(cc, resourceType, res)|
    ensures Body(cc, resourceType, res)[i] == PropertyLine(cc, Group(res.Properties, true)[k])
    ensures Body(cc, resourceType, res)[j] == PropertyLine(cc, Group(res.Properties, false)[l])
  {
    var r, o := Group(res.Properties, true), Group(res.Properties, false);
    var rl, ol := Lines(cc, r), Lines(cc, o);
    assert rl[k] == PropertyLine(cc, r[k]);
    assert ol[l] == PropertyLine(cc, o[l]);
    i, j := AssembleOrder(Header(cc, resourceType, res.Documentation), rl, ol, k, l);
  }

  /** Without a required property the body is the header and `end` alone: no
      line starts with a tab, so neither heading and no property line appears. */
  lemma BodyWithoutRequired(cc: ChangeCase, resourceType: string, res: ResourceData)
    requires |Group(res.Properties, true)| == 0
    ensures Body(cc, resourceType, res) == Header(cc, resourceType, res.Documentation) + [End]
    ensures forall line :: line in Body(cc, resourceType, res) ==> |line| > 0 && line[0] != '\t'
  {
    var h := Header(cc, resourceType, res.Documentation);
    AssembleLayout(h, Lines(cc, Group(res.Properties, true)), Lines(cc, Group(res.Properties, false)));
    HeaderWithoutTab(cc, resourceType, res.Documentation);
  }

  /** No header line is empty or starts with a tab. */
  lemma HeaderWithoutTab(cc: ChangeCase, resourceType: string, documentation: Option<string>)
    ensures forall line :: line in Header(cc, resourceType, documentation) + [End] ==> |line| > 0 && line[0] != '\t'
  {
    var h := Header(cc, resourceType, documentation);
    forall line | line in h + [End] ensures |line| > 0 && line[0] != '\t' {
      if line != End {
        var i :| 0 <= i < 6 && h[i] == line;
        assert line[0] == if i <= 2 then '#' else if i == 3 then 'r' else ' ';
      }
    }
  }

  /** The behaviour at `update-snippets.ts:110` as written: the "Other
      properties" section is gated on the required count, so a resource with
      no required property shows none of its optional properties. */
  lemma OptionalDroppedWithoutRequired(cc: ChangeCase, resourceType: string, res: ResourceData, prop: Property)
    requires |Group(res.Properties, true)| == 0
    requires prop in res.Properties
    ensures !IsRequired(prop.1)
    ensures PropertyLine(cc, prop) !in Body(cc, resourceType, res)
    ensures OtherHeading !in Body(cc, resourceType, res)
  {
    GroupMembers(res.Properties, true, prop);
    BodyWithoutRequired(cc, resourceType, res);
    PropertyLineStartsWithTab(cc, prop);
  }

  /** A worked instance: a resource whose only property is required and
      immutable gets the header, the required heading, one annotated line, a
      blank line, an empty "Other properties" section and `end`. */
  lemma OneRequiredImmutable(cc: ChangeCase, resourceType: string, doc: Option<string>, name: string)
    ensures var res := ResourceData(doc, [(name, PropertyData(Some(true), None, Some("Immutable")))]);
      Body(cc, resourceType, res)
        == Header(cc, resourceType, doc)
           + [RequiredHeading, Declaration(cc, name) + " # " + TriggersReplacement, "", OtherHeading, End]
  {
    var prop := (name, PropertyData(Some(true), None, Some("Immutable")));
    assert [prop][..0] == [];
    assert Group([prop], true) == [prop];
    assert Group([prop], false) == [];
    PropertyLineCases(cc, prop);
    assert Lines(cc, [prop]) == [PropertyLine(cc, prop)];
  }
}
