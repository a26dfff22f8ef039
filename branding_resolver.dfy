/**
 * The tenant branding of the shell: how a settled fetch replaces it, how the
 * image-error flag is reset when the logo reference changes, and which of the
 * three brand panels is shown.
 */
module BrandingResolver {

  /** `{ companyName, companyLogo }`; an absent or empty logo reference is `""`. */
  datatype Branding = Branding(companyName: string, companyLogo: string)

  /** The product's own identity, used before any fetch and after a failed one. */
  const DefaultBranding: Branding := Branding("MessageMaster", "")

  /** The fixed origin that logo references are resolved against. */
  const BackendOrigin: string := "https://messagemaster-backend.onrender.com"

  /** How a branding request settles: its response body, or a rejection. */
  datatype FetchOutcome = Fetched(payload: Branding) | FetchFailed

  /** The brand panel of the sidebar. */
  datatype BrandPanel =
    | Placeholder                        // a neutral block while loading
    | LogoImage(src: string, alt: string) // the tenant's logo
    | CompanyName(name: string)           // the company name as a heading

  /** `renderBranding`: placeholder while loading, else the logo if present and not failed, else the name. */
  function RenderBranding(loading: bool, b: Branding, logoError: bool): (p: BrandPanel)
    ensures p.Placeholder? <==> loading
    ensures p.LogoImage? <==> !loading && b.companyLogo != "" && !logoError
    ensures p.LogoImage? ==> p.src == BackendOrigin + b.companyLogo && p.alt == b.companyName
    ensures p.CompanyName? <==> !loading && (b.companyLogo == "" || logoError)
    ensures p.CompanyName? ==> p.name == b.companyName
  {
    if loading then Placeholder
    else if b.companyLogo != "" && !logoError then LogoImage(BackendOrigin + b.companyLogo, b.companyName)
    else CompanyName(b.companyName)
  }

  /** The branding a settled fetch installs: the body as-is, or the default on failure. */
  function SettledBranding(outcome: FetchOutcome): (b: Branding)
    ensures outcome.Fetched? ==> b == outcome.payload
    ensures outcome.FetchFailed? ==> b == DefaultBranding
  {
    match outcome
    case Fetched(payload) => payload
    case FetchFailed => DefaultBranding
  }

  /**
   * The image-error flag once the branding changes from logo `oldLogo` to
   * `newLogo`: the effect keyed on the logo clears it exactly when the logo
   * reference changes, and otherwise it keeps its value.
   */
  function LogoErrorAfter(oldLogo: string, newLogo: string, logoError: bool): (e: bool)
    ensures oldLogo != newLogo ==> !e
    ensures oldLogo == newLogo ==> e == logoError
  {
    logoError && oldLogo == newLogo
  }

  /** The image `src` is the origin followed by the logo reference, which it gives back. */
  lemma LogoSourceRecoversReference(b: Branding, logoError: bool)
    requires RenderBranding(false, b, logoError).LogoImage?
    ensures BackendOrigin <= RenderBranding(false, b, logoError).src
    ensures RenderBranding(false, b, logoError).src[|BackendOrigin|..] == b.companyLogo
  {
    var src := BackendOrigin + b.companyLogo;
    assert src[..|BackendOrigin|] == BackendOrigin;
    assert src[|BackendOrigin|..] == b.companyLogo;
  }

  /** After a failed fetch the panel is the default product name, whatever came before. */
  lemma PanelAfterFailure(before: Branding, logoError: bool)
    ensures RenderBranding(false, SettledBranding(FetchFailed),
                           LogoErrorAfter(before.companyLogo, DefaultBranding.companyLogo, logoError))
            == CompanyName("MessageMaster")
  {
  }

  /** A newly received logo reference is always tried, even if the previous one failed. */
  lemma PanelAfterNewLogo(before: Branding, logoError: bool, payload: Branding)
    requires payload.companyLogo != "" && payload.companyLogo != before.companyLogo
    ensures RenderBranding(false, SettledBranding(Fetched(payload)),
                           LogoErrorAfter(before.companyLogo, payload.companyLogo, logoError))
            == LogoImage(BackendOrigin + payload.companyLogo, payload.companyName)
  {
  }

  /** A reference that already failed stays suppressed when the same reference arrives again. */
  lemma FailedLogoStaysSuppressed(before: Branding, payload: Branding)
    requires payload.companyLogo == before.companyLogo
    ensures RenderBranding(false, SettledBranding(Fetched(payload)),
                           LogoErrorAfter(before.companyLogo, payload.companyLogo, true))
            == CompanyName(payload.companyName)
  {
  }
}
