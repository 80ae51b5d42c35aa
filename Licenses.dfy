/**
 * License selection: the license types, the pinned text/URL pairs of the
 * predefined ones, and the precedence that decides what goes into name IDs
 * 13 (license description) and 14 (license info URL).
 */
module Licenses {
  import opened Options

  datatype LicenseType = OFL | Apache | MIT | Custom

  /** A license description and its URL. */
  datatype LicenseTerms = LicenseTerms(text: string, url: string)

  /**
   * `LICENSE_INFO.get(license_type)`: the pinned pair of a predefined
   * license; the table has no entry for Custom.
   */
  function LicenseInfo(t: LicenseType): (r: Option<LicenseTerms>)
    ensures r.Some? <==> t != Custom
    ensures r.Some? ==> r.value.text != "" && r.value.url != ""
  {
    match t
    case OFL => Some(LicenseTerms(
      "This Font Software is licensed under the SIL Open Font License, Version 1.1.",
      "http://scripts.sil.org/OFL"))
    case Apache => Some(LicenseTerms(
      "This Font Software is licensed under the Apache License, Version 2.0.",
      "http://www.apache.org/licenses/LICENSE-2.0"))
    case MIT => Some(LicenseTerms(
      "This Font Software is licensed under the MIT License.",
      "https://opensource.org/licenses/MIT"))
    case Custom => None
  }

  /**
   * What the license branch does to the table: nothing, or `update_field` on
   * 13 with `text` and on 14 with `url` (a None or "" value deletes the field).
   */
  datatype LicenseEdit = Unchanged | Rewrite(text: Option<string>, url: Option<string>)

  /**
   * The license branch of `update_font_metadata`. An explicit license text
   * wins (its URL is written as given, even when absent); otherwise a
   * predefined type writes its pinned pair; a Custom type writes the custom
   * pair only when both parts are non-empty and otherwise changes nothing,
   * without any error; with neither a text nor a type nothing changes.
   */
  function ResolveLicense(
    licenseText: Option<string>, licenseUrl: Option<string>,
    licenseType: Option<LicenseType>,
    customLicense: Option<string>, customLicenseUrl: Option<string>): (r: LicenseEdit)
    ensures licenseText.Some? ==> r == Rewrite(licenseText, licenseUrl)
    ensures licenseText.None? && licenseType.None? ==> r == Unchanged
    ensures licenseText.None? && licenseType.Some? && licenseType.value != Custom ==>
              r.Rewrite? && Truthy(r.text) && Truthy(r.url) &&
              LicenseInfo(licenseType.value) == Some(LicenseTerms(r.text.value, r.url.value))
    ensures licenseText.None? && licenseType == Some(Custom) ==>
              (r.Rewrite? <==> Truthy(customLicense) && Truthy(customLicenseUrl)) &&
              (r.Rewrite? ==> r.text == customLicense && r.url == customLicenseUrl)
  {
    if licenseText.Some? then
      Rewrite(licenseText, licenseUrl)
    else if licenseType.Some? then
      if licenseType.value == Custom && Truthy(customLicense) && Truthy(customLicenseUrl) then
        Rewrite(customLicense, customLicenseUrl)
      else
        match LicenseInfo(licenseType.value)
        case Some(info) => Rewrite(Some(info.text), Some(info.url))
        case None => Unchanged
    else
      Unchanged
  }
}
