/** The member names of a profile-view node as the export spells them. */
module NodeKeys {
  const USER_ID: string := "userId"
  const SHORT_DESCRIPTION: string := "shortDescription"
  const COMPANY_PAGE_URL: string := "companyPageUrl"
  const PROFILE_IMPRESSION_META: string := "profileImpressionMeta"
  const IMPRESSED_DATE_TIME: string := "impressedDateTime"
}
