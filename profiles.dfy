/**
 * The artist profile record (`UserProfile`) as far as the modelled services
 * read or write it, and its initial value (`initialProfile`). Optional
 * properties are `Option`s; JavaScript's truthiness of a string is "present
 * and non-empty".
 */
module Profiles {
  import opened Wrappers

  datatype PlatformStatus = Unverified | Verified | Syncing

  /** One entry of `officialMusicProfiles` / `personalSocialProfiles`. Every
    * property is optional because the editor spreads `undefined` into a new
    * entry for a platform the map does not hold. */
  datatype Platform = Platform(
    url: Option<string>, verified: Option<bool>, status: Option<PlatformStatus>, lastSynced: Option<string>)

  const UNVERIFIED: Platform := Platform(Some(""), Some(false), Some(Unverified), None)

  datatype LegalDocument = LegalDocument(id: string, title: string, content: string)

  datatype UserProfile = UserProfile(
    // basic info
    artistName: string, stageName: Option<string>, location: Option<string>, bio: string,
    // musical identity
    primaryGenre: string, secondaryGenres: seq<string>, musicalInfluences: string,
    artistsYouSoundLike: seq<string>, uniqueSound: string,
    // experience
    yearsActive: real, formalTraining: string, skills: seq<string>,
    // career
    careerGoals: seq<string>, currentFocus: string, biggestChallenge: string, upcomingProjects: string,
    // marketing and business
    promotionChannels: seq<string>, revenueStreams: seq<string>, contentStrategy: string,
    legalDocuments: Option<seq<LegalDocument>>,
    // equipment
    daw: seq<string>, equipment: seq<string>,
    // online presence
    links: map<string, string>,
    officialMusicProfiles: map<string, Platform>, personalSocialProfiles: map<string, Platform>,
    // the two link maps the profile editor writes, which the declared record does not have
    socialMedia: Option<map<string, string>>, musicPlatforms: Option<map<string, string>>,
    // professional identity
    proName: Option<string>, mlcId: Option<string>, soundExchangeId: Option<string>)

  /** JavaScript truthiness of an optional string. */
  predicate Filled(s: Option<string>) {
    s.Some? && s.value != ""
  }

  const NEW_ARTIST: string := "New Artist"
  const BIO_PLACEHOLDER: string := "Describe your musical journey..."

  const INITIAL_PROFILE: UserProfile := UserProfile(
    NEW_ARTIST, Some(""), Some(""), BIO_PLACEHOLDER,
    "", [], "", [], "",
    0.0, "", [],
    [], "", "", "",
    [], [], "", Some([]),
    [], [],
    map[],
    map["apple" := UNVERIFIED, "spotify" := UNVERIFIED, "tidal" := UNVERIFIED, "iheart" := UNVERIFIED,
        "amazon" := UNVERIFIED, "youtube" := UNVERIFIED, "pandora" := UNVERIFIED, "soundcloud" := UNVERIFIED],
    map["facebook" := UNVERIFIED, "instagram" := UNVERIFIED, "tiktok" := UNVERIFIED,
        "youtube" := UNVERIFIED, "x" := UNVERIFIED],
    None, None,
    Some(""), Some(""), Some(""))
}
