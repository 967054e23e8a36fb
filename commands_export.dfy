/** The names of the files the graph exports are written to, and which
    running generators the running export picks. Rendering a generator as a
    graph and writing the file are not part of this model. */
module CommandsExport {
  import opened Wrappers
  import opened Strings

  /** Every piece preceded by `sep`, in order. */
  function Prefixed(pieces: seq<string>, sep: char): string
  {
    if |pieces| == 0 then ""
    else Prefixed(pieces[..|pieces| - 1], sep) + [sep] + pieces[|pieces| - 1]
  }

  /** The export file name: the base name, then every piece preceded by `_`,
      then `.dot`. */
  function TaggedName(base: string, pieces: seq<string>): string
  {
    base + Prefixed(pieces, '_') + ".dot"
  }

  /** Builds the name as the exporters do: `_` after the base name and after
      every piece, then the last `_` is cut off and `.dot` appended. */
  method ExportName(base: string, pieces: seq<string>) returns (name: string)
    ensures name == TaggedName(base, pieces)
  {
    var tagged := base + "_";
    for i := 0 to |pieces|
      invariant tagged == base + Prefixed(pieces[..i], '_') + "_"
    {
      assert pieces[..i + 1][..i] == pieces[..i];
      tagged := tagged + pieces[i] + "_";
    }
    assert pieces[..|pieces|] == pieces;
    tagged := tagged[..|tagged| - 1];
    name := tagged + ".dot";
  }

  /** Appending a piece to a join adds `sep` and the piece. */
  lemma {:induction false} JoinSnoc(parts: seq<string>, last: string, sep: char)
    requires |parts| >= 1
    ensures Join(parts + [last], sep) == Join(parts, sep) + [sep] + last
    decreases |parts|
  {
    if |parts| > 1 {
      assert (parts + [last])[1..] == parts[1..] + [last];
      JoinSnoc(parts[1..], last, sep);
    } else {
      assert (parts + [last])[1..] == [last];
    }
  }

  /** The base name followed by the prefixed pieces is their join. */
  lemma {:induction false} PrefixedJoin(base: string, pieces: seq<string>, sep: char)
    ensures base + Prefixed(pieces, sep) == Join([base] + pieces, sep)
    decreases |pieces|
  {
    if |pieces| > 0 {
      var init := pieces[..|pieces| - 1];
      PrefixedJoin(base, init, sep);
      JoinSnoc([base] + init, pieces[|pieces| - 1], sep);
      assert [base] + pieces == ([base] + init) + [pieces[|pieces| - 1]];
    }
  }

  /** When neither the base name nor any piece holds `_`, the name without
      `.dot`, split on `_`, gives back the base name and the pieces: the
      export names of different pieces differ. */
  lemma NameSplits(base: string, pieces: seq<string>)
    requires '_' !in base && forall i :: 0 <= i < |pieces| ==> '_' !in pieces[i]
    ensures EndsWith(TaggedName(base, pieces), ".dot")
    ensures var stem := TaggedName(base, pieces)[..|TaggedName(base, pieces)| - 4];
      Split(stem, {'_'}) == [base] + pieces
  {
    var stem := base + Prefixed(pieces, '_');
    assert TaggedName(base, pieces) == stem + ".dot";
    assert TaggedName(base, pieces)[..|TaggedName(base, pieces)| - 4] == stem;
    PrefixedJoin(base, pieces, '_');
    SplitJoin([base] + pieces, '_');
  }

  // ---------------------------------------------------------------------
  // Exporting a part
  // ---------------------------------------------------------------------

  /** What the parts store holds under a name: a combined part with its
      generators (each given by its id tags, in the tag set's order) or a
      part of another kind. */
  datatype Part = Combined(genTags: seq<seq<string>>) | Other

  /** The names a part export writes: one per generator of a combined part,
      named by the base name, the part name and the generator's tags;
      nothing for a missing part or another kind of part. */
  function PartNames(base: string, partName: string, part: Option<Part>): seq<string>
  {
    if part.Some? && part.value.Combined? then
      seq(|part.value.genTags|, k requires 0 <= k < |part.value.genTags| =>
        TaggedName(base, [partName] + part.value.genTags[k]))
    else []
  }

  /** The part export, generator by generator. */
  method ExportPart(base: string, partName: string, part: Option<Part>) returns (names: seq<string>)
    ensures names == PartNames(base, partName, part)
    ensures part.None? || part.value.Other? ==> names == []
    ensures part.Some? && part.value.Combined? ==>
      |names| == |part.value.genTags| &&
      forall k :: 0 <= k < |names| ==> names[k] == TaggedName(base, [partName] + part.value.genTags[k])
  {
    names := [];
    if part.Some? && part.value.Combined? {
      var gens := part.value.genTags;
      for k := 0 to |gens|
        invariant |names| == k
        invariant forall j :: 0 <= j < k ==> names[j] == TaggedName(base, [partName] + gens[j])
      {
        var name := ExportName(base, [partName] + gens[k]);
        names := names + [name];
      }
    }
  }

  // ---------------------------------------------------------------------
  // Exporting running generators
  // ---------------------------------------------------------------------

  /** Whether a scheduler's id tags share a tag with the query. */
  predicate Meets(query: set<string>, idTags: seq<string>)
  {
    exists t :: t in idTags && t in query
  }

  /** The schedulers whose id tags meet the query, in the order they are
      visited. */
  function Picked(query: set<string>, running: seq<seq<string>>): (r: seq<seq<string>>)
    ensures |r| <= |running|
  {
    if |running| == 0 then []
    else (Picked(query, running[..|running| - 1]) +
          (if Meets(query, running[|running| - 1]) then [running[|running| - 1]] else []))
  }

  /** Exactly the schedulers that meet the query are picked. */
  lemma {:induction false} PickedExactly(query: set<string>, running: seq<seq<string>>, ids: seq<string>)
    ensures ids in Picked(query, running) <==> ids in running && Meets(query, ids)
  {
    if |running| > 0 {
      var init := running[..|running| - 1];
      PickedExactly(query, init, ids);
      assert running == init + [running[|running| - 1]];
    }
  }

  /** Picking keeps the visiting order: the picks from two runs one after
      the other are the picks from the first, then those from the second. */
  lemma {:induction false} PickedAppend(query: set<string>, first: seq<seq<string>>, second: seq<seq<string>>)
    ensures Picked(query, first + second) == Picked(query, first) + Picked(query, second)
    decreases |second|
  {
    if |second| == 0 {
      assert first + second == first;
    } else {
      var init := second[..|second| - 1];
      PickedAppend(query, first, init);
      assert (first + second)[..|first + second| - 1] == first + init;
    }
  }

  /** The names a running export writes: one per picked scheduler, named by
      the base name and its id tags. */
  function RunningNames(base: string, query: set<string>, running: seq<seq<string>>): seq<string>
  {
    var picked := Picked(query, running);
    seq(|picked|, k requires 0 <= k < |picked| => TaggedName(base, picked[k]))
  }

  /** The running export: first the schedulers are picked, then a name is
      built for each. */
  method ExportRunning(base: string, query: set<string>, running: seq<seq<string>>) returns (names: seq<string>)
    ensures names == RunningNames(base, query, running)
  {
    var picked: seq<seq<string>> := [];
    for i := 0 to |running|
      invariant picked == Picked(query, running[..i])
    {
      assert running[..i + 1][..i] == running[..i];
      if Meets(query, running[i]) {
        picked := picked + [running[i]];
      }
    }
    assert running[..|running|] == running;
    names := [];
    for k := 0 to |picked|
      invariant |names| == k
      invariant forall j :: 0 <= j < k ==> names[j] == TaggedName(base, picked[j])
    {
      var name := ExportName(base, picked[k]);
      names := names + [name];
    }
  }

  /** A query that meets no scheduler writes nothing. */
  lemma NothingMet(base: string, query: set<string>, running: seq<seq<string>>)
    requires forall k :: 0 <= k < |running| ==> !Meets(query, running[k])
    ensures RunningNames(base, query, running) == []
  {
    if |Picked(query, running)| > 0 {
      var ids := Picked(query, running)[0];
      PickedExactly(query, running, ids);
    }
  }
}
