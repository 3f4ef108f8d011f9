/** A mount is described by comma-separated fields, so what a path may hold decides whether the
    runtime mounts it. */
module MountParsing {
  import opened Prelude
  import opened Texts
  import opened CommandLine

  function Fields(spec: string): seq<string> { Split(spec, ',') }

  /** The value of the last field of that name. */
  function ValueOf(fields: seq<string>, prefix: string): Option<string> {
    if fields == [] then None
    else if prefix <= fields[|fields| - 1] then Some(fields[|fields| - 1][|prefix|..])
    else ValueOf(fields[..|fields| - 1], prefix)
  }

  /** Fields are read as CSV: quoting is not something a bare path survives, nor is a line's end. */
  predicate Unquoted(spec: string) { '"' !in spec && '\n' !in spec && '\r' !in spec }

  function SourceOf(spec: string): Option<string> {
    if Unquoted(spec) then ValueOf(Fields(spec), "src=") else None
  }

  lemma {:induction false} ValueHasNoComma(fields: seq<string>, prefix: string)
    requires forall i :: 0 <= i < |fields| ==> ',' !in fields[i]
    ensures ValueOf(fields, prefix).Some? ==> ',' !in ValueOf(fields, prefix).value
  {
    if fields != [] && !(prefix <= fields[|fields| - 1]) { ValueHasNoComma(fields[..|fields| - 1], prefix); }
  }

  lemma TargetFields(target: string, readOnly: bool)
    requires ',' !in target
    ensures Fields(MountTarget(target, readOnly))
         == if readOnly then ["dst=" + target, "readonly"] else ["dst=" + target]
  {
    SplitWhole("dst=" + target, ',');
    SplitWhole("readonly", ',');
    SplitFirst("dst=" + target, "readonly", ',');
  }

  lemma SpecFields(source: string, target: string, readOnly: bool)
    requires ',' !in source && ',' !in target
    ensures Fields(MountSpec(source, target, readOnly))
         == ["type=bind"] + (["src=" + source] + Fields(MountTarget(target, readOnly)))
  {
    SplitFirst("src=" + source, MountTarget(target, readOnly), ',');
    SplitFirst("type=bind", "src=" + source + "," + MountTarget(target, readOnly), ',');
  }

  lemma ValueAfter(fields: seq<string>, last: string, prefix: string)
    ensures !(prefix <= last) ==> ValueOf(fields + [last], prefix) == ValueOf(fields, prefix)
    ensures prefix <= last ==> ValueOf(fields + [last], prefix) == Some(last[|prefix|..])
  {
    assert (fields + [last])[..|fields|] == fields;
  }

  lemma SourceAmongFields(source: string, target: string, readOnly: bool)
    requires ',' !in target
    ensures ValueOf(["type=bind"] + (["src=" + source] + Fields(MountTarget(target, readOnly))), "src=") == Some(source)
  {
    var first := ["type=bind"] + ["src=" + source];
    ValueAfter(["type=bind"], "src=" + source, "src=");
    assert ("src=" + source)[4..] == source;
    ValueAfter(first, "dst=" + target, "src=");
    assert ("dst=" + target)[0] == 'd' && "readonly"[0] == 'r';
    ValueAfter(first + ["dst=" + target], "readonly", "src=");
    TargetFields(target, readOnly);
    assert ["type=bind"] + (["src=" + source] + ["dst=" + target]) == first + ["dst=" + target];
    assert ["type=bind"] + (["src=" + source] + ["dst=" + target, "readonly"])
        == first + ["dst=" + target] + ["readonly"];
  }

  /** The runtime mounts the path it was given exactly when the path has no comma, no quote and no
      line end. */
  lemma MountedAsGiven(source: string, target: string, readOnly: bool)
    requires ',' !in target && Unquoted(target)
    ensures SourceOf(MountSpec(source, target, readOnly)) == Some(source) <==> ',' !in source && Unquoted(source)
  {
    var spec := MountSpec(source, target, readOnly);
    assert Unquoted(spec) <==> Unquoted(source) by { SpecUnquoted(source, target, readOnly); }
    if ',' in source {
      ValueHasNoComma(Fields(spec), "src=");
    } else {
      SpecFields(source, target, readOnly);
      SourceAmongFields(source, target, readOnly);
    }
  }

  lemma UnquotedSum(a: string, b: string)
    ensures Unquoted(a + b) <==> Unquoted(a) && Unquoted(b)
  {
  }

  lemma SpecUnquoted(source: string, target: string, readOnly: bool)
    requires Unquoted(target)
    ensures Unquoted(MountSpec(source, target, readOnly)) <==> Unquoted(source)
  {
    var after := MountTarget(target, readOnly);
    UnquotedSum("dst=", target);
    UnquotedSum("dst=" + target, "," + "readonly");
    assert "dst=" + target + ("," + "readonly") == "dst=" + target + "," + "readonly";
    UnquotedSum("src=", source);
    UnquotedSum("src=" + source, ",");
    UnquotedSum("src=" + source + ",", after);
    UnquotedSum("type=bind" + ",", "src=" + source + "," + after);
  }
}
