/**
 * What a non-interactive command-line run does to the name table: the
 * configuration `process_font` builds from its arguments, fed to
 * `update_font_metadata`. The lemmas read the engine's per-field properties
 * through that configuration.
 */
module CommandLineRun {
  import opened Options
  import opened NameRecords
  import opened Licenses
  import opened Copyright
  import opened Config
  import opened Engine
  import opened EngineProperties

  /** The name table a command line leaves behind. */
  function RunResult(s: seq<NameRecord>, args: CommandLine, year: nat): seq<NameRecord> {
    Transform(s, ConfigFromCommandLine(args, year))
  }

  /**
   * `--license` defaults to OFL and no explicit license text is passed, so
   * every predefined license writes its pinned pair, and a Custom license
   * writes the custom pair when both parts are non-empty and otherwise
   * leaves name IDs 13 and 14 as they were.
   */
  lemma CommandLineLicense(s: seq<NameRecord>, args: CommandLine, year: nat)
    ensures args.license != Custom ==>
              var terms := LicenseInfo(args.license).value;
              Only(RunResult(s, args, year), {13}) == [Canonical(13, terms.text)] &&
              Only(RunResult(s, args, year), {14}) == [Canonical(14, terms.url)]
    ensures args.license == Custom && Truthy(args.customLicense) && Truthy(args.customLicenseUrl) ==>
              Only(RunResult(s, args, year), {13}) == [Canonical(13, args.customLicense.value)] &&
              Only(RunResult(s, args, year), {14}) == [Canonical(14, args.customLicenseUrl.value)]
    ensures args.license == Custom && !(Truthy(args.customLicense) && Truthy(args.customLicenseUrl)) ==>
              Only(RunResult(s, args, year), {13}) == Only(s, {13}) &&
              Only(RunResult(s, args, year), {14}) == Only(s, {14})
  {
    LicenseFields(s, ConfigFromCommandLine(args, year));
  }

  /**
   * Name ID 0 after a run: a given non-empty `--copyright` is written, an
   * empty one removes the field; without `--copyright`, a non-empty
   * manufacturer yields the one notice that names the year and that
   * manufacturer, and with no manufacturer either the field is removed, not
   * preserved.
   */
  lemma CommandLineCopyright(s: seq<NameRecord>, args: CommandLine, year: nat)
    ensures Truthy(args.copyright) ==>
              Only(RunResult(s, args, year), {0}) == [Canonical(0, args.copyright.value)]
    ensures args.copyright == Some("") ==> Only(RunResult(s, args, year), {0}) == []
    ensures args.copyright.None? && Truthy(args.manufacturer) ==>
              && Only(RunResult(s, args, year), {0}) == [Canonical(0, CopyrightNotice(args.manufacturer, year))]
              && ParseNotice(CopyrightNotice(args.manufacturer, year)) == Some(Notice(year, args.manufacturer))
    ensures args.copyright.None? && !Truthy(args.manufacturer) ==> Only(RunResult(s, args, year), {0}) == []
  {
    var c := ConfigFromCommandLine(args, year);
    TrademarkCopyrightAlwaysRewritten(s, c, 0);
    if args.copyright.None? && Truthy(args.manufacturer) {
      NoticeParsePrint(c.copyrightText.value);
    }
  }

  /** Without `--trademark`, name ID 7 is removed, not preserved. */
  lemma CommandLineTrademark(s: seq<NameRecord>, args: CommandLine, year: nat)
    ensures !Truthy(args.trademark) ==> Only(RunResult(s, args, year), {7}) == []
    ensures Truthy(args.trademark) ==> Only(RunResult(s, args, year), {7}) == [Canonical(7, args.trademark.value)]
  {
    TrademarkCopyrightAlwaysRewritten(s, ConfigFromCommandLine(args, year), 7);
  }

  /**
   * `--family "<a> <b>" --subfamily <sub>` (say "Acme Sans" and "Bold"): one
   * canonical subfamily record, every existing full-name record reads
   * "<a> <b> <sub>" ("Acme Sans Bold") and every existing PostScript-name
   * record "<a><b>-<sub>" ("AcmeSans-Bold").
   */
  lemma TwoWordFamilyNames(s: seq<NameRecord>, args: CommandLine, year: nat, a: string, b: string, sub: string)
    requires args.family == Some(a + " " + b) && args.subfamily == Some(sub)
    requires ' ' !in a && ' ' !in b && ' ' !in sub && sub != ""
    ensures Only(RunResult(s, args, year), {2}) == [Canonical(2, sub)]
    ensures forall x :: x in Only(RunResult(s, args, year), {4}) ==> x.text == Some(a + " " + b + " " + sub)
    ensures forall x :: x in Only(RunResult(s, args, year), {6}) ==> x.text == Some(a + b + "-" + sub)
  {
    var c := ConfigFromCommandLine(args, year);
    SubfamilyRewrittenOnlyWithFamily(s, c);
    DerivedNamesRebuilt(s, c);
    PostScriptNameOfTwoWords(a, b, sub);
  }

  /**
   * A run with `--family <family>` alone (so OFL, no manufacturer, no
   * copyright) plus `--trademark ""`, on a table whose subfamily reads `sub`
   * and whose version reads `version`; the lemmas below state what it leaves
   * in each field.
   */
  predicate FamilyOnlyRun(s: seq<NameRecord>, args: CommandLine, family: string, sub: string, version: string) {
    && args.family == Some(family) && family != "" && ' ' !in family && ' ' !in sub
    && args.subfamily == None && args.license == OFL
    && args.manufacturer == None && args.designer == None
    && args.trademark == Some("") && args.copyright == None
    && OriginalSubfamily(s) == sub && OriginalVersion(s) == Some(version) && version != ""
  }

  /**
   * In that run the family names are renamed in place, the subfamily stays,
   * and the full and PostScript names are rebuilt from the family and the
   * table's own subfamily.
   */
  lemma FamilyOnlyRunNames(s: seq<NameRecord>, args: CommandLine, year: nat, family: string, sub: string, version: string)
    requires FamilyOnlyRun(s, args, family, sub, version)
    ensures var r := RunResult(s, args, year);
            && SameVariants(Only(r, {1}), Only(s, {1})) && (forall x :: x in Only(r, {1}) ==> x.text == Some(family))
            && SameVariants(Only(r, {16}), Only(s, {16})) && (forall x :: x in Only(r, {16}) ==> x.text == Some(family))
            && Only(r, {2}) == Only(s, {2})
            && (forall x :: x in Only(r, {4}) ==> x.text == Some(family + " " + sub))
            && (forall x :: x in Only(r, {6}) ==> x.text == Some(family + "-" + sub))
  {
    var c := ConfigFromCommandLine(args, year);
    FamilyRenamedInPlace(s, c, 1);
    FamilyRenamedInPlace(s, c, 16);
    SubfamilyRewrittenOnlyWithFamily(s, c);
    DerivedNamesRebuilt(s, c);
    StripSpacesNoSpace(family);
    StripSpacesNoSpace(sub);
  }

  /** In that run the OFL pair is written. */
  lemma FamilyOnlyRunLicense(s: seq<NameRecord>, args: CommandLine, year: nat, family: string, sub: string, version: string)
    requires FamilyOnlyRun(s, args, family, sub, version)
    ensures Only(RunResult(s, args, year), {13}) == [Canonical(13, LicenseInfo(OFL).value.text)]
    ensures Only(RunResult(s, args, year), {14}) == [Canonical(14, LicenseInfo(OFL).value.url)]
  {
    CommandLineLicense(s, args, year);
  }

  /**
   * In that run the trademark goes, and so does the copyright, because an
   * absent copyright with no manufacturer resolves to None.
   */
  lemma FamilyOnlyRunRemovals(s: seq<NameRecord>, args: CommandLine, year: nat, family: string, sub: string, version: string)
    requires FamilyOnlyRun(s, args, family, sub, version)
    ensures Only(RunResult(s, args, year), {7}) == []
    ensures Only(RunResult(s, args, year), {0}) == []
  {
    var c := ConfigFromCommandLine(args, year);
    assert c.trademark == Some("") && c.copyrightText == None;
    TrademarkCopyrightAlwaysRewritten(s, c, 7);
    TrademarkCopyrightAlwaysRewritten(s, c, 0);
  }

  /**
   * In that run manufacturer and designer stay and the version is restored.
   * (Name IDs outside the whitelist, 18 among them, go in every run, by
   * `DisallowedIdsDropped`.)
   */
  lemma FamilyOnlyRunOtherFields(s: seq<NameRecord>, args: CommandLine, year: nat, family: string, sub: string, version: string)
    requires FamilyOnlyRun(s, args, family, sub, version)
    ensures Only(RunResult(s, args, year), {8}) == Only(s, {8})
    ensures Only(RunResult(s, args, year), {9}) == Only(s, {9})
    ensures Only(RunResult(s, args, year), {5}) == [Canonical(5, version)]
  {
    var c := ConfigFromCommandLine(args, year);
    ManufacturerDesignerTriState(s, c, 8);
    ManufacturerDesignerTriState(s, c, 9);
    VersionRestored(s, c);
  }
}
