/**
 * `update_font_metadata`: the fixed sequence of edits applied to a font's
 * name table. The specification is the function `Transform`, built from one
 * function per phase; the class `NameTable` performs the same edits step by
 * step on its `names` field, as the source does, and is proved to end in
 * `Transform` of the records it started with.
 */
module Engine {
  import opened Options
  import opened NameRecords
  import opened Licenses
  import opened Config

  /** `s.replace(' ', '')`: the string without its space characters. */
  function StripSpaces(s: string): (r: string)
    ensures |r| <= |s|
    ensures forall i :: 0 <= i < |r| ==> r[i] != ' '
  {
    if s == [] then []
    else (if s[0] == ' ' then [] else [s[0]]) + StripSpaces(s[1..])
  }

  /** Exactly the non-space characters of `s` survive. */
  lemma {:induction false} StripSpacesChars(s: string)
    ensures forall c :: c in StripSpaces(s) <==> c in s && c != ' '
  {
    if s != [] {
      StripSpacesChars(s[1..]);
      assert s == [s[0]] + s[1..];
    }
  }

  /** Removing spaces works piece by piece. */
  lemma {:induction false} StripSpacesAppend(a: string, b: string)
    ensures StripSpaces(a + b) == StripSpaces(a) + StripSpaces(b)
  {
    if a == [] {
      assert a + b == b;
    } else {
      assert (a + b)[0] == a[0];
      assert (a + b)[1..] == a[1..] + b;
      StripSpacesAppend(a[1..], b);
    }
  }

  /** A string without spaces is left as it is. */
  lemma {:induction false} StripSpacesNoSpace(s: string)
    requires ' ' !in s
    ensures StripSpaces(s) == s
  {
    if s != [] {
      assert s[0] != ' ' && ' ' !in s[1..];
      StripSpacesNoSpace(s[1..]);
      assert [s[0]] + s[1..] == s;
    }
  }

  /** The full font name (name ID 4) written for a family and subfamily. */
  function FullName(family: string, subfamily: string): string {
    family + " " + subfamily
  }

  /** The PostScript name (name ID 6): both parts without spaces, joined by '-'. */
  function PostScriptName(family: string, subfamily: string): (r: string)
    ensures ' ' !in r
  {
    var r := StripSpaces(family) + "-" + StripSpaces(subfamily);
    assert forall i :: 0 <= i < |r| ==> r[i] != ' ';
    r
  }

  /** Two space-free words joined by one space lose just that space. */
  lemma StripSpacesJoin(a: string, b: string)
    requires ' ' !in a && ' ' !in b
    ensures StripSpaces(a + " " + b) == a + b
  {
    assert StripSpaces(a + " ") == a by {
      StripSpacesAppend(a, " ");
      StripSpacesNoSpace(a);
      assert StripSpaces(" ") == "";
    }
    StripSpacesAppend(a + " ", b);
    StripSpacesNoSpace(b);
  }

  /** A two-word family loses the space between its words. */
  lemma PostScriptNameOfTwoWords(a: string, b: string, subfamily: string)
    requires ' ' !in a && ' ' !in b && ' ' !in subfamily
    ensures PostScriptName(a + " " + b, subfamily) == a + b + "-" + subfamily
  {
    StripSpacesJoin(a, b);
    StripSpacesNoSpace(subfamily);
  }

  /** The subfamily the snapshot loop ends with: the last decodable name ID 2 text, else "Regular". */
  function OriginalSubfamily(s: seq<NameRecord>): string {
    LastDecoded(s, 2).GetOr("Regular")
  }

  /** The version the snapshot loop ends with: the last decodable name ID 5 text, if any. */
  function OriginalVersion(s: seq<NameRecord>): Option<string> {
    LastDecoded(s, 5)
  }

  /** `new_subfamily`: the configured subfamily when non-empty, else the original one. */
  function EffectiveSubfamily(c: FontToolConfig, s: seq<NameRecord>): string {
    if Truthy(c.subfamily) then c.subfamily.value else OriginalSubfamily(s)
  }

  /**
   * The family phase ("Update Family", "Rebuild Full Font Name", "Rebuild
   * PostScript Name"), taken only when the new family is non-empty: the family
   * texts (1, 16) rewritten in place; the subfamily (2) replaced by one
   * canonical record when a subfamily is given; the existing full-name (4)
   * and PostScript-name (6) records rewritten in place.
   */
  function FamilyStep(s: seq<NameRecord>, c: FontToolConfig, sub: string): seq<NameRecord> {
    if !Truthy(c.newFamily) then s
    else
      var family := c.newFamily.value;
      var s1 := Retext(s, {1, 16}, family);
      var s2 := if Truthy(c.subfamily) then Replaced(s1, 2, c.subfamily) else s1;
      var s3 := Retext(s2, {4}, FullName(family, sub));
      Retext(s3, {6}, PostScriptName(family, sub))
  }

  /** The license phase ("License data"): the license description (13) and URL (14). */
  function LicenseStep(s: seq<NameRecord>, c: FontToolConfig): seq<NameRecord> {
    match LicenseEditOf(c)
    case Unchanged => s
    case Rewrite(text, url) => Replaced(Replaced(s, 13, text), 14, url)
  }

  /**
   * The other-fields phase ("Other fields"): manufacturer (8) and designer (9)
   * are rewritten only when given; trademark (7) and copyright (0) are
   * rewritten always, so None removes them just as "" does.
   */
  function OtherFieldsStep(s: seq<NameRecord>, c: FontToolConfig): seq<NameRecord> {
    var s1 := if c.manufacturer.Some? then Replaced(s, 8, c.manufacturer) else s;
    var s2 := if c.designer.Some? then Replaced(s1, 9, c.designer) else s1;
    Replaced(Replaced(s2, 7, c.trademark), 0, c.copyrightText)
  }

  /** The version phase ("Restore version"): a non-empty snapshot version is written back as one canonical record. */
  function VersionStep(s: seq<NameRecord>, version: Option<string>): seq<NameRecord> {
    if Truthy(version) then Replaced(s, 5, version) else s
  }

  /**
   * The whole of `update_font_metadata` on the table's records: the phases
   * in source order, then the final filter ("Filter out unneeded fields")
   * keeps only allowed IDs.
   */
  function Transform(s: seq<NameRecord>, c: FontToolConfig): (r: seq<NameRecord>)
    ensures forall x :: x in r ==> x.nameID in AllowedNameIds
  {
    var s1 := FamilyStep(s, c, EffectiveSubfamily(c, s));
    var s2 := LicenseStep(s1, c);
    var s3 := OtherFieldsStep(s2, c);
    var s4 := VersionStep(s3, OriginalVersion(s));
    Only(s4, AllowedNameIds)
  }

  /** A font's 'name' table, whose list of records the engine edits in place. */
  class NameTable {
    var names: seq<NameRecord>

    constructor (records: seq<NameRecord>)
      ensures names == records
    {
      names := records;
    }

    /** The snapshot loop: the original subfamily and version, skipping records that do not decode. */
    method SnapshotOriginals() returns (subfamily: string, version: Option<string>)
      ensures subfamily == OriginalSubfamily(names)
      ensures version == OriginalVersion(names)
    {
      subfamily := "Regular";
      version := None;
      var i := 0;
      while i < |names|
        invariant 0 <= i <= |names|
        invariant subfamily == LastDecoded(names[..i], 2).GetOr("Regular")
        invariant version == LastDecoded(names[..i], 5)
      {
        assert names[..i + 1][..i] == names[..i];
        var record := names[i];
        if record.nameID == 2 {
          if record.text.Some? {
            subfamily := record.text.value;
          }
        } else if record.nameID == 5 {
          if record.text.Some? {
            version := record.text;
          }
        }
        i := i + 1;
      }
      assert names[..i] == names;
    }

    /** `update_field`: drop the ID's records, then append one canonical record for a non-empty value. */
    method UpdateField(id: nat, value: Option<string>)
      modifies this
      ensures names == Replaced(old(names), id, value)
    {
      names := Without(names, id);
      if value.Some? && value.value != "" {
        names := names + [Canonical(id, value.value)];
      }
    }

    /** A loop that sets the text of every record whose name ID is in `ids`, in place. */
    method RetextRecords(ids: set<nat>, text: string)
      modifies this
      ensures names == Retext(old(names), ids, text)
    {
      var i := 0;
      while i < |names|
        invariant 0 <= i <= |names| && |names| == |old(names)|
        invariant forall j :: 0 <= j < i ==> names[j] == RetextRecord(old(names)[j], ids, text)
        invariant forall j :: i <= j < |names| ==> names[j] == old(names)[j]
      {
        if names[i].nameID in ids {
          names := names[i := names[i].(text := Some(text))];
        }
        i := i + 1;
      }
    }

    /** The family phase ("Update Family", "Rebuild Full Font Name", "Rebuild PostScript Name"). */
    method ApplyFamily(config: FontToolConfig, newSubfamily: string)
      requires Truthy(config.subfamily) ==> newSubfamily == config.subfamily.value
      modifies this
      ensures names == FamilyStep(old(names), config, newSubfamily)
    {
      if Truthy(config.newFamily) {
        var family := config.newFamily.value;
        RetextRecords({1, 16}, family);
        if Truthy(config.subfamily) {
          UpdateField(2, Some(newSubfamily));
        }
        RetextRecords({4}, FullName(family, newSubfamily));
        RetextRecords({6}, PostScriptName(family, newSubfamily));
      }
    }

    /** The license phase ("License data"). */
    method ApplyLicense(config: FontToolConfig)
      modifies this
      ensures names == LicenseStep(old(names), config)
    {
      if config.licenseText.Some? {
        UpdateField(13, config.licenseText);
        UpdateField(14, config.licenseUrl);
      } else if config.licenseType.Some? {
        if config.licenseType.value == Custom && Truthy(config.customLicense) && Truthy(config.customLicenseUrl) {
          UpdateField(13, config.customLicense);
          UpdateField(14, config.customLicenseUrl);
        } else {
          var info := LicenseInfo(config.licenseType.value);
          if info.Some? {
            UpdateField(13, Some(info.value.text));
            UpdateField(14, Some(info.value.url));
          }
        }
      }
    }

    /** The other-fields phase ("Other fields"). */
    method ApplyOtherFields(config: FontToolConfig)
      modifies this
      ensures names == OtherFieldsStep(old(names), config)
    {
      if config.manufacturer.Some? {
        UpdateField(8, config.manufacturer);
      }
      if config.designer.Some? {
        UpdateField(9, config.designer);
      }
      UpdateField(7, config.trademark);
      UpdateField(0, config.copyrightText);
    }

    /** `update_font_metadata(font, config)`. */
    method UpdateFontMetadata(config: FontToolConfig)
      modifies this
      ensures names == Transform(old(names), config)
    {
      var originalSubfamily, versionString := SnapshotOriginals();
      var newSubfamily := if Truthy(config.subfamily) then config.subfamily.value else originalSubfamily;
      ApplyFamily(config, newSubfamily);
      ApplyLicense(config);
      ApplyOtherFields(config);
      if versionString.Some? && versionString.value != "" {
        UpdateField(5, versionString);
      }
      names := Only(names, AllowedNameIds);
    }
  }
}
