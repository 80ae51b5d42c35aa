/**
 * The default output file name chosen when no output path is configured:
 * a PostScript-style "family-subfamily" stem plus the input's extension. Its
 * subfamily comes from the FIRST name ID 2 record, where the engine's
 * snapshot keeps the LAST decodable one.
 */
module OutputName {
  import opened Options
  import opened NameRecords
  import opened Config
  import opened Engine
  import opened EngineProperties

  /**
   * The subfamily the default-name scan reads: the text of the first name ID
   * 2 record if it decodes, "Regular" if it does not or if there is none.
   */
  function FirstSubfamily(s: seq<NameRecord>): string {
    if s == [] then "Regular"
    else if s[0].nameID == 2 then s[0].text.GetOr("Regular")
    else FirstSubfamily(s[1..])
  }

  /** `FirstSubfamily` reads the first name ID 2 record, and only that one. */
  lemma {:induction false} FirstSubfamilyReadsFirst(s: seq<NameRecord>)
    ensures (forall i :: 0 <= i < |s| ==> s[i].nameID != 2) ==> FirstSubfamily(s) == "Regular"
    ensures forall i :: 0 <= i < |s| && s[i].nameID == 2 && (forall j :: 0 <= j < i ==> s[j].nameID != 2) ==>
                        FirstSubfamily(s) == s[i].text.GetOr("Regular")
  {
    if s != [] && s[0].nameID != 2 {
      FirstSubfamilyReadsFirst(s[1..]);
      assert forall i :: 0 < i < |s| ==> s[1..][i - 1] == s[i];
    }
  }

  /** The scan loop of the default-name code, which stops at the first name ID 2 record. */
  method ScanFirstSubfamily(names: seq<NameRecord>) returns (subfamily: string)
    ensures subfamily == FirstSubfamily(names)
  {
    subfamily := "Regular";
    var i := 0;
    while i < |names|
      invariant 0 <= i <= |names|
      invariant forall j :: 0 <= j < i ==> names[j].nameID != 2
      invariant subfamily == "Regular"
    {
      if names[i].nameID == 2 {
        if names[i].text.Some? {
          subfamily := names[i].text.value;
        }
        break;
      }
      i := i + 1;
    }
    FirstSubfamilyReadsFirst(names);
  }

  /** `{family or 'UnknownFamily'}-{subfamily}` without spaces, then the extension. */
  function DefaultOutputName(family: Option<string>, subfamily: Option<string>, firstSubfamily: string, ext: string): string {
    var usedSubfamily := if Truthy(subfamily) then subfamily.value else firstSubfamily;
    PostScriptName(if Truthy(family) then family.value else "UnknownFamily", usedSubfamily) + ext
  }

  /**
   * The output path: the configured one when non-empty, otherwise the default
   * name built from the table's first subfamily record and the input's
   * extension `ext`.
   */
  method ResolveOutput(config: FontToolConfig, names: seq<NameRecord>, ext: string) returns (output: string)
    ensures Truthy(config.output) ==> output == config.output.value
    ensures !Truthy(config.output) ==>
              output == DefaultOutputName(config.newFamily, config.subfamily, FirstSubfamily(names), ext)
  {
    if Truthy(config.output) {
      output := config.output.value;
    } else {
      var originalSubfamily := ScanFirstSubfamily(names);
      output := DefaultOutputName(config.newFamily, config.subfamily, originalSubfamily, ext);
    }
  }

  /** The default name's stem holds no space, and the extension follows it unchanged. */
  lemma DefaultOutputNameShape(family: Option<string>, subfamily: Option<string>, firstSubfamily: string, ext: string)
    ensures var r := DefaultOutputName(family, subfamily, firstSubfamily, ext);
            |r| >= |ext| && r[|r| - |ext|..] == ext && ' ' !in r[..|r| - |ext|]
  {
    var stem := PostScriptName(if Truthy(family) then family.value else "UnknownFamily",
                               if Truthy(subfamily) then subfamily.value else firstSubfamily);
    var r := stem + ext;
    assert r[..|r| - |ext|] == stem;
    assert r[|r| - |ext|..] == ext;
  }

  /**
   * When every name ID 2 record decodes to one and the same text, the first
   * and the last agree, so the scan and the snapshot read the same subfamily.
   */
  lemma FirstAgreesWithSnapshot(s: seq<NameRecord>, text: string)
    requires forall i :: 0 <= i < |s| && s[i].nameID == 2 ==> s[i].text == Some(text)
    ensures FirstSubfamily(s) == OriginalSubfamily(s)
  {
    FirstOfUniform(s, text);
    LastOfUniform(s, text);
  }

  lemma {:induction false} FirstOfUniform(s: seq<NameRecord>, text: string)
    requires forall i :: 0 <= i < |s| && s[i].nameID == 2 ==> s[i].text == Some(text)
    ensures FirstSubfamily(s) == if exists i :: 0 <= i < |s| && s[i].nameID == 2 then text else "Regular"
  {
    if s != [] && s[0].nameID != 2 {
      var t := s[1..];
      assert forall i :: 0 <= i < |t| ==> t[i] == s[i + 1];
      FirstOfUniform(t, text);
      if i :| 0 <= i < |s| && s[i].nameID == 2 {
        assert t[i - 1].nameID == 2;
      }
    }
  }

  lemma {:induction false} LastOfUniform(s: seq<NameRecord>, text: string)
    requires forall i :: 0 <= i < |s| && s[i].nameID == 2 ==> s[i].text == Some(text)
    ensures LastDecoded(s, 2) == if exists i :: 0 <= i < |s| && s[i].nameID == 2 then Some(text) else None
    decreases |s|
  {
    if s != [] && s[|s| - 1].nameID != 2 {
      var p := s[..|s| - 1];
      assert forall i :: 0 <= i < |p| ==> p[i] == s[i];
      LastOfUniform(p, text);
      if i :| 0 <= i < |s| && s[i].nameID == 2 {
        assert p[i].nameID == 2;
      }
    }
  }

  /**
   * With a non-empty family and the first and last subfamily records in
   * agreement (or a subfamily given), the default file name is the
   * PostScript name the engine writes into every name ID 6 record, plus the
   * extension.
   */
  lemma OutputNameMatchesPostScriptName(s: seq<NameRecord>, c: FontToolConfig, ext: string)
    requires Truthy(c.newFamily)
    requires Truthy(c.subfamily) || FirstSubfamily(s) == OriginalSubfamily(s)
    ensures var stem := PostScriptName(c.newFamily.value, EffectiveSubfamily(c, s));
            && DefaultOutputName(c.newFamily, c.subfamily, FirstSubfamily(s), ext) == stem + ext
            && forall x :: x in Only(Transform(s, c), {6}) ==> x.text == Some(stem)
  {
    DerivedNamesRebuilt(s, c);
  }

  /**
   * A table with two subfamily records, `first` on the Macintosh platform
   * and then `last` on Windows, followed by a PostScript-name record that
   * reads `psName`.
   */
  function SampleTable(first: string, last: string, psName: string): seq<NameRecord> {
    [NameRecord(2, 1, 0, 0, Some(first)), NameRecord(2, 3, 1, 0x409, Some(last)), Canonical(6, psName)]
  }

  /** The default-name scan reads the first subfamily record, the snapshot the last. */
  lemma SampleTableRead(first: string, last: string, psName: string)
    ensures FirstSubfamily(SampleTable(first, last, psName)) == first
    ensures OriginalSubfamily(SampleTable(first, last, psName)) == last
    ensures Only(SampleTable(first, last, psName), {6}) == [Canonical(6, psName)]
  {
    var s := SampleTable(first, last, psName);
    assert s[..|s| - 1] == s[..2] && s[..2][1] == s[1];
    assert LastDecoded(s, 2) == LastDecoded(s[..2], 2) == Some(last);
    assert s[1..][1..][1..] == [];
  }

  /** A table with one PostScript-name record gets exactly one back, carrying the derived name. */
  lemma SinglePostScriptRecordRewritten(s: seq<NameRecord>, c: FontToolConfig, psName: string)
    requires Truthy(c.newFamily) && Only(s, {6}) == [Canonical(6, psName)]
    ensures Only(Transform(s, c), {6}) == [Canonical(6, PostScriptName(c.newFamily.value, EffectiveSubfamily(c, s)))]
  {
    DerivedNamesRebuilt(s, c);
    var written := Only(Transform(s, c), {6});
    assert |written| == 1 && written[0] in written;
  }

  /**
   * Whenever the first subfamily record reads `a`, the last decodable one
   * `a b`, and the table has one PostScript-name record, the file is named
   * after `a` while that record is rewritten to `a` and `b` joined.
   */
  lemma FirstAndLastDisagree(s: seq<NameRecord>, c: FontToolConfig, a: string, b: string, psName: string, ext: string)
    requires Truthy(c.newFamily) && !Truthy(c.subfamily)
    requires ' ' !in a && ' ' !in b && b != ""
    requires FirstSubfamily(s) == a && OriginalSubfamily(s) == a + " " + b
    requires Only(s, {6}) == [Canonical(6, psName)]
    ensures var family := c.newFamily.value;
            && DefaultOutputName(c.newFamily, c.subfamily, FirstSubfamily(s), ext) == StripSpaces(family) + "-" + a + ext
            && Only(Transform(s, c), {6}) == [Canonical(6, StripSpaces(family) + "-" + a + b)]
            && DefaultOutputName(c.newFamily, c.subfamily, FirstSubfamily(s), ext)
               != StripSpaces(family) + "-" + a + b + ext
  {
    var family := c.newFamily.value;
    StripSpacesNoSpace(a);
    StripSpacesJoin(a, b);
    assert EffectiveSubfamily(c, s) == a + " " + b;
    assert PostScriptName(family, a + " " + b) == StripSpaces(family) + "-" + a + b;
    SinglePostScriptRecordRewritten(s, c, psName);
    assert |StripSpaces(family) + "-" + a + ext| < |StripSpaces(family) + "-" + a + b + ext|;
  }

  /**
   * The two readings can disagree: in a table whose subfamily record `a`
   * comes before an `a b` one (say "Bold" before "Bold Italic"), the file is
   * named after `a`, while the table's PostScript-name record is rewritten to
   * `a` and `b` joined.
   */
  lemma OutputNameCanDifferFromPostScriptName(c: FontToolConfig, a: string, b: string, psName: string, ext: string)
    requires Truthy(c.newFamily) && !Truthy(c.subfamily)
    requires ' ' !in a && ' ' !in b && b != ""
    ensures var s := SampleTable(a, a + " " + b, psName);
            var family := c.newFamily.value;
            && DefaultOutputName(c.newFamily, c.subfamily, FirstSubfamily(s), ext) == StripSpaces(family) + "-" + a + ext
            && Only(Transform(s, c), {6}) == [Canonical(6, StripSpaces(family) + "-" + a + b)]
            && DefaultOutputName(c.newFamily, c.subfamily, FirstSubfamily(s), ext)
               != StripSpaces(family) + "-" + a + b + ext
  {
    SampleTableRead(a, a + " " + b, psName);
    FirstAndLastDisagree(SampleTable(a, a + " " + b, psName), c, a, b, psName, ext);
  }
}
