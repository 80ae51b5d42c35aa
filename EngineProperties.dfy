/**
 * What `update_font_metadata` promises, field by field. The central lemma,
 * `TransformField`, says that the records the output holds for one name ID
 * depend only on the records the input held for that name ID, on the
 * configuration and on the two snapshot values; every other lemma here reads
 * one property of the engine off that description.
 */
module EngineProperties {
  import opened Options
  import opened NameRecords
  import opened Licenses
  import opened Config
  import opened Engine

  // ---------------------------------------------------------------------------
  // One field's records after each phase, given that field's records before it.

  /** A rewriting loop's effect on one field. */
  function RetextField(x: seq<NameRecord>, ids: set<nat>, text: string, k: nat): seq<NameRecord> {
    if k in ids then WithText(x, text) else x
  }

  function FamilyField(x: seq<NameRecord>, k: nat, c: FontToolConfig, sub: string): seq<NameRecord> {
    if !Truthy(c.newFamily) then x
    else
      var family := c.newFamily.value;
      var x1 := RetextField(x, {1, 16}, family, k);
      var x2 := if Truthy(c.subfamily) && k == 2 then CanonicalField(2, c.subfamily) else x1;
      var x3 := RetextField(x2, {4}, FullName(family, sub), k);
      RetextField(x3, {6}, PostScriptName(family, sub), k)
  }

  function LicenseField(x: seq<NameRecord>, k: nat, c: FontToolConfig): seq<NameRecord> {
    match LicenseEditOf(c)
    case Unchanged => x
    case Rewrite(text, url) =>
      if k == 13 then CanonicalField(13, text)
      else if k == 14 then CanonicalField(14, url)
      else x
  }

  function OtherField(x: seq<NameRecord>, k: nat, c: FontToolConfig): seq<NameRecord> {
    if k == 8 then (if c.manufacturer.Some? then CanonicalField(8, c.manufacturer) else x)
    else if k == 9 then (if c.designer.Some? then CanonicalField(9, c.designer) else x)
    else if k == 7 then CanonicalField(7, c.trademark)
    else if k == 0 then CanonicalField(0, c.copyrightText)
    else x
  }

  function VersionField(x: seq<NameRecord>, k: nat, version: Option<string>): seq<NameRecord> {
    if k == 5 && Truthy(version) then CanonicalField(5, version) else x
  }

  /**
   * The reference description of one field's records at the end of the run,
   * given that field's records at the start, the effective subfamily and the
   * version snapshot: one case per name ID, as the engine's phases treat it.
   */
  function FieldAfter(x: seq<NameRecord>, k: nat, c: FontToolConfig, sub: string, version: Option<string>): seq<NameRecord> {
    if k !in AllowedNameIds then []
    else if k == 1 || k == 16 then
      (if Truthy(c.newFamily) then WithText(x, c.newFamily.value) else x)
    else if k == 2 then
      (if Truthy(c.newFamily) && Truthy(c.subfamily) then [Canonical(2, c.subfamily.value)] else x)
    else if k == 4 then
      (if Truthy(c.newFamily) then WithText(x, FullName(c.newFamily.value, sub)) else x)
    else if k == 6 then
      (if Truthy(c.newFamily) then WithText(x, PostScriptName(c.newFamily.value, sub)) else x)
    else if k == 13 || k == 14 then
      (match LicenseEditOf(c)
       case Unchanged => x
       case Rewrite(text, url) => CanonicalField(k, if k == 13 then text else url))
    else if k == 8 then
      (if c.manufacturer.Some? then CanonicalField(8, c.manufacturer) else x)
    else if k == 9 then
      (if c.designer.Some? then CanonicalField(9, c.designer) else x)
    else if k == 7 then CanonicalField(7, c.trademark)
    else if k == 0 then CanonicalField(0, c.copyrightText)
    else if k == 5 then
      (if Truthy(version) then [Canonical(5, version.value)] else x)
    else x
  }

  /** The phases composed agree with the reference description. */
  lemma PhasesComposeToFieldAfter(x: seq<NameRecord>, k: nat, c: FontToolConfig, sub: string, version: Option<string>)
    requires k in AllowedNameIds
    ensures VersionField(OtherField(LicenseField(FamilyField(x, k, c, sub), k, c), k, c), k, version) ==
            FieldAfter(x, k, c, sub, version)
  {
  }

  lemma FamilyStepField(s: seq<NameRecord>, c: FontToolConfig, sub: string, k: nat)
    ensures Only(FamilyStep(s, c, sub), {k}) == FamilyField(Only(s, {k}), k, c, sub)
  {
    if Truthy(c.newFamily) {
      var family := c.newFamily.value;
      var s1 := Retext(s, {1, 16}, family);
      var s2 := if Truthy(c.subfamily) then Replaced(s1, 2, c.subfamily) else s1;
      var s3 := Retext(s2, {4}, FullName(family, sub));
      OnlyRetext(s, {1, 16}, family, k);
      if Truthy(c.subfamily) {
        OnlyReplaced(s1, 2, c.subfamily, k);
      }
      OnlyRetext(s2, {4}, FullName(family, sub), k);
      OnlyRetext(s3, {6}, PostScriptName(family, sub), k);
    }
  }

  lemma LicenseStepField(s: seq<NameRecord>, c: FontToolConfig, k: nat)
    ensures Only(LicenseStep(s, c), {k}) == LicenseField(Only(s, {k}), k, c)
  {
    match LicenseEditOf(c)
    case Unchanged =>
    case Rewrite(text, url) =>
      OnlyReplaced(s, 13, text, k);
      OnlyReplaced(Replaced(s, 13, text), 14, url, k);
  }

  lemma OtherFieldsStepField(s: seq<NameRecord>, c: FontToolConfig, k: nat)
    ensures Only(OtherFieldsStep(s, c), {k}) == OtherField(Only(s, {k}), k, c)
  {
    var s1 := if c.manufacturer.Some? then Replaced(s, 8, c.manufacturer) else s;
    var s2 := if c.designer.Some? then Replaced(s1, 9, c.designer) else s1;
    var s3 := Replaced(s2, 7, c.trademark);
    assert Only(s1, {k}) == if k == 8 && c.manufacturer.Some? then CanonicalField(8, c.manufacturer) else Only(s, {k}) by {
      if c.manufacturer.Some? {
        OnlyReplaced(s, 8, c.manufacturer, k);
      }
    }
    assert Only(s2, {k}) == if k == 9 && c.designer.Some? then CanonicalField(9, c.designer) else Only(s1, {k}) by {
      if c.designer.Some? {
        OnlyReplaced(s1, 9, c.designer, k);
      }
    }
    OnlyReplaced(s2, 7, c.trademark, k);
    OnlyReplaced(s3, 0, c.copyrightText, k);
  }

  lemma VersionStepField(s: seq<NameRecord>, version: Option<string>, k: nat)
    ensures Only(VersionStep(s, version), {k}) == VersionField(Only(s, {k}), k, version)
  {
    if Truthy(version) {
      OnlyReplaced(s, 5, version, k);
    }
  }

  /**
   * The output's records for any name ID are determined by the input's
   * records for that ID: dropped outright outside the allowed set, and
   * otherwise the result of the phases that touch that ID.
   */
  lemma TransformField(s: seq<NameRecord>, c: FontToolConfig, k: nat)
    ensures Only(Transform(s, c), {k}) ==
            FieldAfter(Only(s, {k}), k, c, EffectiveSubfamily(c, s), OriginalVersion(s))
  {
    var sub := EffectiveSubfamily(c, s);
    var s1 := FamilyStep(s, c, sub);
    var s2 := LicenseStep(s1, c);
    var s3 := OtherFieldsStep(s2, c);
    var s4 := VersionStep(s3, OriginalVersion(s));
    FamilyStepField(s, c, sub, k);
    LicenseStepField(s1, c, k);
    OtherFieldsStepField(s2, c, k);
    VersionStepField(s3, OriginalVersion(s), k);
    OnlyOnly(s4, AllowedNameIds, {k});
    if k in AllowedNameIds {
      assert AllowedNameIds * {k} == {k};
      PhasesComposeToFieldAfter(Only(s, {k}), k, c, sub, OriginalVersion(s));
    } else {
      assert AllowedNameIds * {k} == {};
      OnlyEmptySet(s4);
    }
  }

  // ---------------------------------------------------------------------------
  // The engine's promises, one field at a time.

  /** `FieldAfter`, read case by case. */
  lemma FieldAfterCases(x: seq<NameRecord>, k: nat, c: FontToolConfig, sub: string, v: Option<string>)
    ensures k !in AllowedNameIds ==> FieldAfter(x, k, c, sub, v) == []
    ensures k == 3 || k == 17 ==> FieldAfter(x, k, c, sub, v) == x
    ensures k == 1 || k == 16 ==>
              FieldAfter(x, k, c, sub, v) == if Truthy(c.newFamily) then WithText(x, c.newFamily.value) else x
    ensures k == 2 ==>
              FieldAfter(x, k, c, sub, v) ==
              if Truthy(c.newFamily) && Truthy(c.subfamily) then [Canonical(2, c.subfamily.value)] else x
    ensures k == 4 ==>
              FieldAfter(x, k, c, sub, v) ==
              if Truthy(c.newFamily) then WithText(x, FullName(c.newFamily.value, sub)) else x
    ensures k == 6 ==>
              FieldAfter(x, k, c, sub, v) ==
              if Truthy(c.newFamily) then WithText(x, PostScriptName(c.newFamily.value, sub)) else x
    ensures k == 13 ==>
              FieldAfter(x, k, c, sub, v) ==
              if LicenseEditOf(c).Rewrite? then CanonicalField(13, LicenseEditOf(c).text) else x
    ensures k == 14 ==>
              FieldAfter(x, k, c, sub, v) ==
              if LicenseEditOf(c).Rewrite? then CanonicalField(14, LicenseEditOf(c).url) else x
    ensures k == 8 ==>
              FieldAfter(x, k, c, sub, v) == if c.manufacturer.Some? then CanonicalField(8, c.manufacturer) else x
    ensures k == 9 ==>
              FieldAfter(x, k, c, sub, v) == if c.designer.Some? then CanonicalField(9, c.designer) else x
    ensures k == 7 ==> FieldAfter(x, k, c, sub, v) == CanonicalField(7, c.trademark)
    ensures k == 0 ==> FieldAfter(x, k, c, sub, v) == CanonicalField(0, c.copyrightText)
    ensures k == 5 ==> FieldAfter(x, k, c, sub, v) == if Truthy(v) then [Canonical(5, v.value)] else x
  {
  }

  /** Name IDs outside the whitelist leave no record behind, touched or not. */
  lemma DisallowedIdsDropped(s: seq<NameRecord>, c: FontToolConfig, k: nat)
    requires k !in AllowedNameIds
    ensures Only(Transform(s, c), {k}) == []
  {
    TransformField(s, c, k);
    FieldAfterCases(Only(s, {k}), k, c, EffectiveSubfamily(c, s), OriginalVersion(s));
  }

  /** Unique identifier (3) and typographic subfamily (17) pass through untouched. */
  lemma UntouchedFieldsKept(s: seq<NameRecord>, c: FontToolConfig, k: nat)
    requires k == 3 || k == 17
    ensures Only(Transform(s, c), {k}) == Only(s, {k})
  {
    TransformField(s, c, k);
    FieldAfterCases(Only(s, {k}), k, c, EffectiveSubfamily(c, s), OriginalVersion(s));
  }

  /**
   * A non-empty new family rewrites every family (1) and typographic family
   * (16) record in place: same records, same variants, new text. Without one
   * they are left as they were.
   */
  lemma FamilyRenamedInPlace(s: seq<NameRecord>, c: FontToolConfig, k: nat)
    requires k == 1 || k == 16
    ensures Truthy(c.newFamily) ==>
              SameVariants(Only(Transform(s, c), {k}), Only(s, {k})) &&
              forall x :: x in Only(Transform(s, c), {k}) ==> x.text == c.newFamily
    ensures !Truthy(c.newFamily) ==> Only(Transform(s, c), {k}) == Only(s, {k})
  {
    TransformField(s, c, k);
    FieldAfterCases(Only(s, {k}), k, c, EffectiveSubfamily(c, s), OriginalVersion(s));
    if Truthy(c.newFamily) {
      WithTextVariants(Only(s, {k}), c.newFamily.value);
    }
  }

  /**
   * The subfamily (2) becomes the single canonical record of the configured
   * subfamily only when both a new family and a subfamily are non-empty; in
   * every other case its records are untouched.
   */
  lemma SubfamilyRewrittenOnlyWithFamily(s: seq<NameRecord>, c: FontToolConfig)
    ensures Truthy(c.newFamily) && Truthy(c.subfamily) ==>
              Only(Transform(s, c), {2}) == [Canonical(2, c.subfamily.value)]
    ensures !(Truthy(c.newFamily) && Truthy(c.subfamily)) ==>
              Only(Transform(s, c), {2}) == Only(s, {2})
  {
    TransformField(s, c, 2);
    FieldAfterCases(Only(s, {2}), 2, c, EffectiveSubfamily(c, s), OriginalVersion(s));
  }

  /**
   * With a non-empty new family, every existing full-name (4) record reads
   * "family subfamily" and every existing PostScript-name (6) record reads
   * the space-free "family-subfamily", where the subfamily is the configured
   * one or else the snapshot; the records keep their variants and none is
   * created. Without a new family both fields are untouched.
   */
  lemma DerivedNamesRebuilt(s: seq<NameRecord>, c: FontToolConfig)
    ensures Truthy(c.newFamily) ==>
              var sub := EffectiveSubfamily(c, s);
              && SameVariants(Only(Transform(s, c), {4}), Only(s, {4}))
              && SameVariants(Only(Transform(s, c), {6}), Only(s, {6}))
              && (forall x :: x in Only(Transform(s, c), {4}) ==> x.text == Some(FullName(c.newFamily.value, sub)))
              && (forall x :: x in Only(Transform(s, c), {6}) ==> x.text == Some(PostScriptName(c.newFamily.value, sub)))
    ensures !Truthy(c.newFamily) ==>
              Only(Transform(s, c), {4}) == Only(s, {4}) && Only(Transform(s, c), {6}) == Only(s, {6})
  {
    TransformField(s, c, 4);
    FieldAfterCases(Only(s, {4}), 4, c, EffectiveSubfamily(c, s), OriginalVersion(s));
    TransformField(s, c, 6);
    FieldAfterCases(Only(s, {6}), 6, c, EffectiveSubfamily(c, s), OriginalVersion(s));
    if Truthy(c.newFamily) {
      var sub := EffectiveSubfamily(c, s);
      WithTextVariants(Only(s, {4}), FullName(c.newFamily.value, sub));
      WithTextVariants(Only(s, {6}), PostScriptName(c.newFamily.value, sub));
    }
  }

  /** The subfamily used for the derived names: the configured one, else the last decodable original, else "Regular". */
  lemma EffectiveSubfamilyChoice(s: seq<NameRecord>, c: FontToolConfig)
    ensures Truthy(c.subfamily) ==> EffectiveSubfamily(c, s) == c.subfamily.value
    ensures !Truthy(c.subfamily) && (forall i :: 0 <= i < |s| ==> !(s[i].nameID == 2 && s[i].text.Some?)) ==>
              EffectiveSubfamily(c, s) == "Regular"
    ensures !Truthy(c.subfamily) ==>
              forall i :: 0 <= i < |s| && s[i].nameID == 2 && s[i].text.Some? &&
                          (forall j :: i < j < |s| ==> !(s[j].nameID == 2 && s[j].text.Some?)) ==>
                          EffectiveSubfamily(c, s) == s[i].text.value
  {
    LastDecodedFindsLast(s, 2);
  }

  /**
   * When the version snapshot is non-empty, the output holds exactly one
   * version (5) record, canonical, with that text, whatever else was edited;
   * otherwise the version records are untouched.
   */
  lemma VersionRestored(s: seq<NameRecord>, c: FontToolConfig)
    ensures Truthy(OriginalVersion(s)) ==>
              Only(Transform(s, c), {5}) == [Canonical(5, OriginalVersion(s).value)]
    ensures !Truthy(OriginalVersion(s)) ==> Only(Transform(s, c), {5}) == Only(s, {5})
  {
    TransformField(s, c, 5);
    FieldAfterCases(Only(s, {5}), 5, c, EffectiveSubfamily(c, s), OriginalVersion(s));
  }

  /**
   * License precedence, seen on name IDs 13 and 14: an explicit text is
   * written with its URL (a missing URL removes 14); otherwise a predefined
   * type writes exactly one record of its pinned text and one of its pinned
   * URL; otherwise a Custom type with both parts writes them and with a part
   * missing changes nothing; with neither a text nor a type nothing changes.
   */
  lemma LicenseFields(s: seq<NameRecord>, c: FontToolConfig)
    ensures c.licenseText.Some? ==>
              Only(Transform(s, c), {13}) == CanonicalField(13, c.licenseText) &&
              Only(Transform(s, c), {14}) == CanonicalField(14, c.licenseUrl)
    ensures c.licenseText.None? && c.licenseType.Some? && c.licenseType.value != Custom ==>
              var terms := LicenseInfo(c.licenseType.value).value;
              Only(Transform(s, c), {13}) == [Canonical(13, terms.text)] &&
              Only(Transform(s, c), {14}) == [Canonical(14, terms.url)]
    ensures c.licenseText.None? && c.licenseType == Some(Custom) &&
            Truthy(c.customLicense) && Truthy(c.customLicenseUrl) ==>
              Only(Transform(s, c), {13}) == [Canonical(13, c.customLicense.value)] &&
              Only(Transform(s, c), {14}) == [Canonical(14, c.customLicenseUrl.value)]
    ensures c.licenseText.None? &&
            (c.licenseType.None? ||
             (c.licenseType == Some(Custom) && !(Truthy(c.customLicense) && Truthy(c.customLicenseUrl)))) ==>
              Only(Transform(s, c), {13}) == Only(s, {13}) &&
              Only(Transform(s, c), {14}) == Only(s, {14})
  {
    TransformField(s, c, 13);
    FieldAfterCases(Only(s, {13}), 13, c, EffectiveSubfamily(c, s), OriginalVersion(s));
    TransformField(s, c, 14);
    FieldAfterCases(Only(s, {14}), 14, c, EffectiveSubfamily(c, s), OriginalVersion(s));
  }

  /**
   * Manufacturer (8) and designer (9) are tri-state: None keeps the records,
   * "" removes them all, a non-empty text leaves exactly one canonical record.
   */
  lemma ManufacturerDesignerTriState(s: seq<NameRecord>, c: FontToolConfig, k: nat)
    requires k == 8 || k == 9
    ensures var v := if k == 8 then c.manufacturer else c.designer;
            && (v.None? ==> Only(Transform(s, c), {k}) == Only(s, {k}))
            && (v == Some("") ==> Only(Transform(s, c), {k}) == [])
            && (Truthy(v) ==> Only(Transform(s, c), {k}) == [Canonical(k, v.value)])
  {
    TransformField(s, c, k);
    FieldAfterCases(Only(s, {k}), k, c, EffectiveSubfamily(c, s), OriginalVersion(s));
  }

  /**
   * Trademark (7) and copyright (0) always go through `update_field`: None
   * removes their records exactly as "" does, and a non-empty text leaves
   * exactly one canonical record.
   */
  lemma TrademarkCopyrightAlwaysRewritten(s: seq<NameRecord>, c: FontToolConfig, k: nat)
    requires k == 7 || k == 0
    ensures var v := if k == 7 then c.trademark else c.copyrightText;
            && (!Truthy(v) ==> Only(Transform(s, c), {k}) == [])
            && (Truthy(v) ==> Only(Transform(s, c), {k}) == [Canonical(k, v.value)])
  {
    TransformField(s, c, k);
    FieldAfterCases(Only(s, {k}), k, c, EffectiveSubfamily(c, s), OriginalVersion(s));
  }

  // ---------------------------------------------------------------------------
  // Re-running the engine.

  lemma FieldAfterIdempotent(x: seq<NameRecord>, k: nat, c: FontToolConfig, sub: string, version: Option<string>)
    ensures FieldAfter(FieldAfter(x, k, c, sub, version), k, c, sub, version) == FieldAfter(x, k, c, sub, version)
  {
    if k in AllowedNameIds && Truthy(c.newFamily) {
      if k == 1 || k == 16 {
        WithTextIdempotent(x, c.newFamily.value);
      } else if k == 4 {
        WithTextIdempotent(x, FullName(c.newFamily.value, sub));
      } else if k == 6 {
        WithTextIdempotent(x, PostScriptName(c.newFamily.value, sub));
      }
    }
  }

  /** The snapshot values of an output table are those of the table it came from. */
  lemma SnapshotsStable(s: seq<NameRecord>, c: FontToolConfig)
    ensures EffectiveSubfamily(c, Transform(s, c)) == EffectiveSubfamily(c, s)
    ensures OriginalVersion(Transform(s, c)) == OriginalVersion(s)
  {
    var t := Transform(s, c);
    TransformField(s, c, 2);
    FieldAfterCases(Only(s, {2}), 2, c, EffectiveSubfamily(c, s), OriginalVersion(s));
    TransformField(s, c, 5);
    FieldAfterCases(Only(s, {5}), 5, c, EffectiveSubfamily(c, s), OriginalVersion(s));
    LastDecodedOnly(s, 2);
    LastDecodedOnly(t, 2);
    LastDecodedOnly(s, 5);
    LastDecodedOnly(t, 5);
    if Truthy(OriginalVersion(s)) {
      LastDecodedSingle(5, OriginalVersion(s).value);
    }
  }

  /**
   * Running the engine twice with the same configuration gives, field for
   * field, the same records as running it once.
   */
  lemma TransformIdempotentPerField(s: seq<NameRecord>, c: FontToolConfig, k: nat)
    ensures Only(Transform(Transform(s, c), c), {k}) == Only(Transform(s, c), {k})
  {
    var t := Transform(s, c);
    var sub, version := EffectiveSubfamily(c, s), OriginalVersion(s);
    TransformField(s, c, k);
    TransformField(t, c, k);
    SnapshotsStable(s, c);
    FieldAfterIdempotent(Only(s, {k}), k, c, sub, version);
  }
}
