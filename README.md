# Font name-table rewrite engine, in Dafny

This project models the core of `main.py`, a command-line tool that rewrites
the naming table (`'name'`) of an OpenType font. The table holds records
keyed by name ID (0 copyright, 1 family, 2 subfamily, 4 full name, 5 version,
6 PostScript name, 7 trademark, 8 manufacturer, 9 designer, 13/14 license
description and URL, 16/17 typographic family and subfamily). Each record
also carries a platform, encoding and language.

The tool works in four parts, and the model covers each:

- `update_font_metadata` takes a configuration and edits the records in a
  fixed order: snapshot the original subfamily and version; rename the
  family records in place; replace the subfamily when one is given; rebuild
  the full and PostScript names; write the license; apply manufacturer,
  designer, trademark and copyright; restore the version; keep only a
  whitelist of name IDs.
- The license is chosen by a precedence over the configuration's license
  fields and a table of three pinned license texts and URLs.
- The command line builds the configuration. When no copyright is given, it
  writes a copyright notice from the manufacturer and the current year.
- When no output path is given, the output file name is built from the
  family and the first subfamily record.

Layout:

- `Options.dfy`: `Option`, and `Truthy`, which is Python truthiness of an
  optional string.
- `NameRecords.dfy`: the record type and the whole-table operations. These
  are the filter, in-place retexting, and `update_field` (`Replaced`). It
  also has the per-name-ID view `Only(s, {k})` and its algebra.
- `Licenses.dfy`: the license types, `LICENSE_INFO`, and the license
  precedence.
- `Copyright.dfy`: `get_copyright_notice` with the year as a parameter. It
  also has a parser that reads a notice back, and the default the command
  line applies.
- `Config.dfy`: `FontToolConfig`, and the configuration `process_font`
  builds from its arguments.
- `Engine.dfy`: the specification function `Transform`, one function per
  phase, and the class `NameTable`.
  - `NameTable` performs the same edits step by step on its `names` field,
    with the snapshot loop and the in-place retexting loops.
  - `NameTable.UpdateFontMetadata` is proved to leave `names ==
    Transform(old(names), config)`.
- `EngineProperties.dfy`: what `Transform` does to each name ID. The central
  lemma `TransformField` says that the output's records of name ID `k`
  depend only on three things: the input's records of `k`, the
  configuration, and the two snapshot values. The lemmas that follow it read
  each property off that description.
- `OutputName.dfy`: the default output file name, and its scan loop with
  `break`.
- `CommandLineRun.dfy`: the properties above, seen through the configuration
  the command line builds. It also has a full run.

Text is an abstract string. A record whose bytes do not decode has text
`None`. The snapshot loops skip such records, as the source's
`try`/`except` does.

Where the comments, the help text or the general description of the tool
disagree with the code, the model follows the code:

- A Custom license with a missing text or URL changes nothing and raises no
  error (main.py:198-209).
- An absent (None) trademark or copyright removes the field, exactly as ""
  does, because `update_field` runs unconditionally (main.py:216-217). The
  comment at main.py:134-135 and the `--trademark` help text (main.py:302) say that None
  preserves the field. `CommandLineRun.CommandLineTrademark` and
  `CommandLineRun.CommandLineCopyright` state the code's behaviour. So does
  `CommandLineRun.FamilyOnlyRunRemovals`: in a run with `--family` alone
  and no manufacturer, the copyright record is removed, not preserved.
- The full and PostScript names are only rewritten on records that already
  exist (main.py:180-190).
- The subfamily is rewritten only when a new family is also given
  (main.py:169, 176).
- The default output name reads the FIRST subfamily record (main.py:374-380).
  The engine's snapshot keeps the LAST decodable one. The two can differ
  (`OutputName.OutputNameCanDifferFromPostScriptName`).

## Model

| member | source | states |
|---|---|---|
| NameRecords.Replaced | main.py:163-166 | `update_field`: no record of the ID is left unless the value is non-empty, and then the canonical (3, 1, 0x409) record with that text is present. Membership of every record of another ID is unchanged. |
| NameRecords.OnlyReplaced | main.py:163-166 | After `update_field(id, v)`, ID `id` holds exactly `[Canonical(id, v)]` for a non-empty `v` and nothing otherwise. Every other ID keeps exactly its records, in order. |
| NameRecords.ReplacedKeepsOthers | main.py:163-166 | `update_field` leaves the records of all other IDs as they were, contents and relative order included. |
| NameRecords.OnlyRetext | main.py:170-173 | The in-place retexting loop, seen from one name ID: the records of a retexted ID get the new text and no other ID changes. |
| NameRecords.WithTextVariants | main.py:170-173 | Retexting keeps every record's name ID, platform, encoding and language, and the number of records. Every record ends with the new text. |
| NameRecords.LastDecodedFindsLast | main.py:147-159 | The snapshot value is present exactly when some record of the ID decodes, and it is the text of the last record that does. |
| NameRecords.LastDecodedOnly | main.py:147-159 | The snapshot of a name ID depends only on that ID's records. |
| Licenses.LicenseInfo | main.py:81-94 | The pinned table has an entry for OFL, Apache and MIT and none for Custom. Each entry has a non-empty text and URL. |
| Licenses.ResolveLicense | main.py:193-209 | License precedence: an explicit text wins, with its URL as given. Otherwise a predefined type gives its pinned pair. Otherwise Custom gives the custom pair exactly when both parts are non-empty. Otherwise nothing changes. |
| Copyright.DecimalRoundTrip | main.py:114 | The year's decimal rendering reads back as the year. |
| Copyright.NoticeRoundTrip | main.py:110-115 | `get_copyright_notice` reads back as its year, plus the manufacturer exactly when the manufacturer is non-empty. |
| Copyright.NoticeParsePrint | main.py:110-115 | The notice parser accepts only notices as `get_copyright_notice` prints them: a year without leading zeros and a non-empty holder or none. Any text it reads as a year and a holder is exactly the notice printed for them. |
| Copyright.DefaultCopyright | main.py:353-357 | The copyright the command line passes on. A given text, "" included, is kept. Otherwise a non-empty manufacturer yields the notice that reads back as the year and that manufacturer, which by `NoticeParsePrint` is exactly the printed notice. Otherwise the copyright is None. |
| Engine.StripSpaces | main.py:189 | `replace(' ', '')` leaves no space and never lengthens the string. |
| Engine.StripSpacesChars | main.py:189 | Exactly the non-space characters survive `replace(' ', '')`. |
| Engine.StripSpacesAppend | main.py:189 | Removing spaces distributes over concatenation. |
| Engine.PostScriptName | main.py:189 | The PostScript name contains no space. |
| Engine.PostScriptNameOfTwoWords | main.py:189 | The PostScript name of a two-word family is the two words joined with no space, then '-', then the subfamily. |
| Engine.Transform | main.py:140-226 | Every record left by `update_font_metadata` has a name ID in the whitelist. |
| Engine.NameTable.SnapshotOriginals | main.py:147-159 | The snapshot loop ends with the last decodable subfamily (default "Regular") and the last decodable version (default none). |
| Engine.NameTable.UpdateField | main.py:163-166 | The method performs `Replaced` on the table. |
| Engine.NameTable.RetextRecords | main.py:170-173 | The loop sets the text of every record whose ID is listed, in place, and touches nothing else. |
| Engine.NameTable.ApplyFamily | main.py:168-190 | The family phase ("Update Family" through "Rebuild PostScript Name") leaves exactly `FamilyStep` of the old records. |
| Engine.NameTable.ApplyLicense | main.py:192-209 | The license branch leaves exactly `LicenseStep` of the old records. |
| Engine.NameTable.ApplyOtherFields | main.py:211-217 | The other-fields branch leaves exactly `OtherFieldsStep` of the old records. |
| Engine.NameTable.UpdateFontMetadata | main.py:140-226 | The whole in-place run leaves exactly `Transform` of the records it started with. |
| EngineProperties.TransformField | main.py:140-226 | The output's records of any name ID are `FieldAfter` of the input's records of that ID: one reference case per ID, given the configuration and the two snapshots. |
| EngineProperties.DisallowedIdsDropped | main.py:224-226 | Every name ID outside the whitelist is absent from the output, whether or not it was touched. |
| EngineProperties.UntouchedFieldsKept | main.py:224-226 | Unique identifier (3) and typographic subfamily (17) pass through with the same records in the same order. |
| EngineProperties.FamilyRenamedInPlace | main.py:168-173 | With a non-empty family, the records of IDs 1 and 16 keep their count and variants and all read the new family. Without a family they are untouched. |
| EngineProperties.SubfamilyRewrittenOnlyWithFamily | main.py:169-177 | ID 2 becomes a single canonical record of the given subfamily exactly when both a family and a subfamily are given. Otherwise its records are untouched. |
| EngineProperties.DerivedNamesRebuilt | main.py:161-190 | With a non-empty family, the existing records of IDs 4 and 6 keep their variants and read `family + " " + sub` and the PostScript name of `family` and `sub`. No record is created. Without a family both are untouched. |
| EngineProperties.EffectiveSubfamilyChoice | main.py:147-161 | The subfamily used for the derived names is the given one when non-empty. Otherwise it is the last decodable original, or "Regular" when none decodes. |
| EngineProperties.VersionRestored | main.py:219-221 | A non-empty version snapshot leaves exactly one canonical version record with that text. Otherwise the version records are untouched. |
| EngineProperties.LicenseFields | main.py:192-209 | IDs 13 and 14 after the run follow the license precedence. Each is exactly one canonical record when written, or the original records when the branch changes nothing. |
| EngineProperties.ManufacturerDesignerTriState | main.py:211-215 | Manufacturer (8) and designer (9) are tri-state. None keeps the records, "" removes them all, and a non-empty text leaves exactly one canonical record. |
| EngineProperties.TrademarkCopyrightAlwaysRewritten | main.py:216-217 | Trademark (7) and copyright (0) are always rewritten. None and "" both remove them, and a non-empty text leaves exactly one canonical record. |
| EngineProperties.FieldAfterIdempotent | main.py:140-226 | The per-ID reference description is idempotent for fixed snapshots. |
| EngineProperties.SnapshotsStable | main.py:147-161 | Running the engine does not change the effective subfamily or the version snapshot that a second run would take. |
| EngineProperties.TransformIdempotentPerField | main.py:140-226 | Applying the same configuration to the output again leaves every name ID's records as the first run left them. |
| OutputName.FirstSubfamilyReadsFirst | main.py:371-380 | The default-name scan reads the first name ID 2 record: its text if it decodes, else "Regular". With no such record it reads "Regular". |
| OutputName.ScanFirstSubfamily | main.py:373-380 | The scan loop with `break` computes `FirstSubfamily`. |
| OutputName.ResolveOutput | main.py:371-385 | A non-empty configured output path is used as is. Otherwise the default name is built from the family (or "UnknownFamily"), the subfamily or the first subfamily record, and the extension. |
| OutputName.DefaultOutputNameShape | main.py:381-385 | The default name is a stem with no space, followed by the extension unchanged. |
| OutputName.FirstAgreesWithSnapshot | main.py:374-380 | When all subfamily records read the same text, the default-name scan and the engine's snapshot agree. |
| OutputName.OutputNameMatchesPostScriptName | main.py:381-385 | With a family given and the two subfamily readings in agreement, the default file name is the PostScript name the engine writes into every ID 6 record, plus the extension. |
| OutputName.FirstAndLastDisagree | main.py:374-385 | In any table whose first subfamily record reads `a`, whose last decodable one reads `a b`, and which has one PostScript-name record, the file is named after `a` while that record is rewritten to `a` and `b` joined. The two differ. |
| OutputName.OutputNameCanDifferFromPostScriptName | main.py:374-385 | Such a table exists: a Macintosh subfamily record `a`, then a Windows one `a b`, then one PostScript-name record. After the run that table holds exactly one PostScript-name record, reading `a` and `b` joined, while the file is named after `a`. |
| Config.ConfigFromCommandLine | main.py:337-358 | The configuration a non-interactive run builds. It always has a license type and never a license text, so the license fields are left unchanged only by an incomplete Custom license. A given copyright, "" included, is passed on. The copyright is absent exactly when neither a copyright nor a manufacturer is given, and otherwise reads back as the year and the manufacturer. |
| CommandLineRun.CommandLineLicense | main.py:343-348 | From the command line, OFL (the default), Apache and MIT always write exactly their pinned pair. Custom writes the custom pair when both parts are non-empty, and otherwise leaves 13 and 14 as they were. |
| CommandLineRun.CommandLineCopyright | main.py:353-357 | Name ID 0 after a command-line run, by case. A non-empty `--copyright` is written and an empty one removes the field. Without one, a non-empty manufacturer yields exactly the notice `get_copyright_notice` prints for the year and the manufacturer, and that notice reads back as them. With neither, the field is removed. |
| CommandLineRun.CommandLineTrademark | main.py:216 | Without a non-empty `--trademark`, name ID 7 is removed. With one, it is a single canonical record. |
| CommandLineRun.TwoWordFamilyNames | main.py:175-190 | `--family "<a> <b>" --subfamily <sub>` (for instance "Acme Sans" and "Bold") gives one canonical subfamily record. Every full-name record reads "<a> <b> <sub>" and every PostScript-name record reads "<a><b>-<sub>". |
| CommandLineRun.FamilyOnlyRunNames | main.py:147-190 | In a run with only `--family` (plus `--trademark ""`), IDs 1 and 16 are renamed in place and ID 2 is untouched. IDs 4 and 6 are rebuilt from the family and the table's own subfamily. |
| CommandLineRun.FamilyOnlyRunLicense | main.py:192-209 | In that run, IDs 13 and 14 hold exactly the OFL pair. |
| CommandLineRun.FamilyOnlyRunRemovals | main.py:216-217 | In that run, the trademark and the copyright records are removed. |
| CommandLineRun.FamilyOnlyRunOtherFields | main.py:211-221 | In that run, manufacturer and designer records are untouched and exactly one canonical version record holds the original version. |

## Left out

- `woff2_mode` (WOFF2 compression) and the `--woff2` dispatch: these are
  file conversion through an external library.
- Loading and saving the font (`TTFont`, `font.save`, `os.path.abspath`),
  and the error exits around them: file I/O.
- Byte encoding of record text. Text is an abstract string, and a decode
  failure is a record whose text is `None`. Consequences:
  - `record.getEncoding()` and `.encode(...)` are not modelled. A record
    whose encoding is unknown, or whose new text cannot be encoded, raises
    in the source, and the model does not capture that failure.
- `setName` is modelled as appending one (3, 1, 0x409) record. It can
  append directly because `update_field` has just removed every record of
  that name ID.
- The records' identity as Python objects is not modelled (no aliasing):
  records are values in a sequence, and the in-place text updates replace
  the element at the same position.
- `datetime.now()`: the year is a parameter.
- `os.path.splitext`: the extension is an input string.
- The Typer/Rich command-line plumbing, console output and the
  `interactive_mode` stub. `CommandLine` holds the parsed option values, and
  `--license` is the `LicenseType` it parses to.
- EngineProperties.TransformIdempotentPerField: a second run with the same
  configuration is proved to give the same records for every name ID, in
  the same order within that ID. It is not proved that the order of records
  across different IDs is the same as after the first run.
