/**
 * `FontToolConfig` and the configuration the non-interactive command line
 * builds from its arguments.
 */
module Config {
  import opened Options
  import opened Licenses
  import Copyright

  /**
   * The run's configuration. Every optional field is None when not given;
   * "" is a given value distinct from None.
   */
  datatype FontToolConfig = FontToolConfig(
    inputPath: string,
    newFamily: Option<string>,
    subfamily: Option<string>,
    output: Option<string>,
    licenseType: Option<LicenseType>,
    customLicense: Option<string>,
    customLicenseUrl: Option<string>,
    licenseText: Option<string>,
    licenseUrl: Option<string>,
    manufacturer: Option<string>,
    designer: Option<string>,
    trademark: Option<string>,
    copyrightText: Option<string>)

  /** The options of the metadata-editing command; `--license` defaults to OFL
      and so is always present. */
  datatype CommandLine = CommandLine(
    inputPath: string,
    family: Option<string>,
    subfamily: Option<string>,
    output: Option<string>,
    license: LicenseType,
    customLicense: Option<string>,
    customLicenseUrl: Option<string>,
    manufacturer: Option<string>,
    designer: Option<string>,
    trademark: Option<string>,
    copyright: Option<string>)

  /** The license edit a configuration asks for. */
  function LicenseEditOf(c: FontToolConfig): LicenseEdit {
    ResolveLicense(c.licenseText, c.licenseUrl, c.licenseType, c.customLicense, c.customLicenseUrl)
  }

  /**
   * The configuration `process_font` passes on: the arguments copied through,
   * no explicit license text or URL, and the copyright defaulted from the
   * manufacturer with the current year given as `year`. Because a license
   * type is always present and no license text is, the license fields are
   * left unchanged only by an incomplete Custom license; the copyright is
   * absent only when neither a copyright nor a manufacturer is given.
   */
  function ConfigFromCommandLine(args: CommandLine, year: nat): (r: FontToolConfig)
    ensures LicenseEditOf(r).Unchanged? <==>
              args.license == Custom && !(Truthy(args.customLicense) && Truthy(args.customLicenseUrl))
    ensures args.copyright.Some? ==> r.copyrightText == args.copyright
    ensures r.copyrightText.None? <==> args.copyright.None? && !Truthy(args.manufacturer)
    ensures args.copyright.None? && Truthy(args.manufacturer) ==>
              Copyright.ParseNotice(r.copyrightText.value) == Some(Copyright.Notice(year, args.manufacturer))
  {
    FontToolConfig(
      inputPath := args.inputPath,
      newFamily := args.family,
      subfamily := args.subfamily,
      output := args.output,
      licenseType := Some(args.license),
      customLicense := args.customLicense,
      customLicenseUrl := args.customLicenseUrl,
      licenseText := None,
      licenseUrl := None,
      manufacturer := args.manufacturer,
      designer := args.designer,
      trademark := args.trademark,
      copyrightText := Copyright.DefaultCopyright(args.copyright, args.manufacturer, year))
  }
}
