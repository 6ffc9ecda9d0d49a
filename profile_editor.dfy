/**
 * The artist profile editor (`ProfileEditorComponent`): a working copy of
 * the profile whose link lists, platform entries, legal documents and text
 * fields are edited one at a time, and which is handed to the profile
 * service on save and when a platform verification completes.
 */
module ProfileEditor {
  import opened Wrappers
  import opened Lists
  import opened Profiles

  // ---------------------------------------------------------------------
  // Links: `socialMedia` and `musicPlatforms`
  // ---------------------------------------------------------------------

  datatype LinkKind = SocialMedia | MusicPlatforms

  /** The link map of a kind; a missing map spreads as an empty one. */
  function Links(p: UserProfile, kind: LinkKind): map<string, string> {
    match kind
    case SocialMedia => p.socialMedia.GetOr(map[])
    case MusicPlatforms => p.musicPlatforms.GetOr(map[])
  }

  /** The profile with the link map of one kind replaced. */
  function WithLinks(p: UserProfile, kind: LinkKind, m: map<string, string>): (r: UserProfile)
    ensures Links(r, kind) == m
  {
    match kind
    case SocialMedia => p.(socialMedia := Some(m))
    case MusicPlatforms => p.(musicPlatforms := Some(m))
  }

  /** Everything but the two link maps is the same. */
  predicate SameButLinks(p: UserProfile, q: UserProfile) {
    p.(socialMedia := q.socialMedia, musicPlatforms := q.musicPlatforms) == q
  }

  function OtherKind(kind: LinkKind): LinkKind {
    if kind == SocialMedia then MusicPlatforms else SocialMedia
  }

  /** `updateLink`: the platform's link becomes the typed value. */
  function UpdateLink(p: UserProfile, kind: LinkKind, platform: string, value: string): (r: UserProfile)
    ensures platform in Links(r, kind) && Links(r, kind)[platform] == value
    ensures Links(r, kind).Keys == Links(p, kind).Keys + {platform}
    ensures forall k :: k != platform && k in Links(p, kind) ==> Links(r, kind)[k] == Links(p, kind)[k]
    ensures Links(r, OtherKind(kind)) == Links(p, OtherKind(kind))
    ensures SameButLinks(r, p)
  {
    WithLinks(p, kind, Links(p, kind)[platform := value])
  }

  /** `addLink`: the platform is added with an empty link. */
  function AddLink(p: UserProfile, kind: LinkKind, platform: string): (r: UserProfile)
    ensures platform in Links(r, kind) && Links(r, kind)[platform] == ""
    ensures Links(r, kind) - {platform} == Links(p, kind) - {platform}
    ensures Links(r, OtherKind(kind)) == Links(p, OtherKind(kind))
    ensures SameButLinks(r, p)
  {
    UpdateLink(p, kind, platform, "")
  }

  /** `removeLink`: only that platform's key goes. */
  function RemoveLink(p: UserProfile, kind: LinkKind, platform: string): (r: UserProfile)
    ensures platform !in Links(r, kind)
    ensures Links(r, kind) == Links(p, kind) - {platform}
    ensures Links(r, OtherKind(kind)) == Links(p, OtherKind(kind))
    ensures SameButLinks(r, p)
  {
    WithLinks(p, kind, Links(p, kind) - {platform})
  }

  /** Adding a platform that had no link and removing it again leaves the
    * link map as it was. */
  lemma AddThenRemove(p: UserProfile, kind: LinkKind, platform: string)
    requires platform !in Links(p, kind)
    ensures Links(RemoveLink(AddLink(p, kind, platform), kind, platform), kind) == Links(p, kind)
  {
  }

  // ---------------------------------------------------------------------
  // Platform entries: `officialMusicProfiles` and `personalSocialProfiles`
  // ---------------------------------------------------------------------

  datatype PlatformKind = OfficialMusic | PersonalSocial

  function Platforms(p: UserProfile, kind: PlatformKind): map<string, Platform> {
    match kind
    case OfficialMusic => p.officialMusicProfiles
    case PersonalSocial => p.personalSocialProfiles
  }

  /** `{ ...category[platform] }`: the entry, or nothing set when absent. */
  function Entry(m: map<string, Platform>, platform: string): Platform {
    if platform in m then m[platform] else Platform(None, None, None, None)
  }

  /** The profile with the platform's entry replaced. */
  function WithEntry(p: UserProfile, kind: PlatformKind, platform: string, e: Platform): (r: UserProfile)
    ensures Platforms(r, kind) == Platforms(p, kind)[platform := e]
  {
    match kind
    case OfficialMusic => p.(officialMusicProfiles := p.officialMusicProfiles[platform := e])
    case PersonalSocial => p.(personalSocialProfiles := p.personalSocialProfiles[platform := e])
  }

  /** Everything but the two platform maps is the same. */
  predicate SameButPlatforms(p: UserProfile, q: UserProfile) {
    p.(officialMusicProfiles := q.officialMusicProfiles, personalSocialProfiles := q.personalSocialProfiles) == q
  }

  function OtherPlatformKind(kind: PlatformKind): PlatformKind {
    if kind == OfficialMusic then PersonalSocial else OfficialMusic
  }

  /** The entry of `platform` after an edit; the other entries of that map,
    * the other map and the rest of the profile are unchanged. */
  predicate EditsOnly(p: UserProfile, r: UserProfile, kind: PlatformKind, platform: string) {
    Platforms(r, kind).Keys == Platforms(p, kind).Keys + {platform} &&
    (forall k :: k != platform && k in Platforms(p, kind) ==> Platforms(r, kind)[k] == Platforms(p, kind)[k]) &&
    Platforms(r, OtherPlatformKind(kind)) == Platforms(p, OtherPlatformKind(kind)) &&
    SameButPlatforms(r, p)
  }

  /** `verifyPlatform`'s first update: the entry is marked 'syncing' at once. */
  function StartVerification(p: UserProfile, kind: PlatformKind, platform: string): (r: UserProfile)
    ensures EditsOnly(p, r, kind, platform)
    ensures var old_, new_ := Entry(Platforms(p, kind), platform), Platforms(r, kind)[platform];
            new_.status == Some(Syncing) && new_.url == old_.url &&
            new_.verified == old_.verified && new_.lastSynced == old_.lastSynced
  {
    var e := Entry(Platforms(p, kind), platform);
    WithEntry(p, kind, platform, e.(status := Some(Syncing)))
  }

  /** `verifyPlatform`'s timer update: the entry becomes 'verified', with
    * `verified` set and `lastSynced` at the clock's ISO text `now`. */
  function FinishVerification(p: UserProfile, kind: PlatformKind, platform: string, now: string): (r: UserProfile)
    ensures EditsOnly(p, r, kind, platform)
    ensures var old_, new_ := Entry(Platforms(p, kind), platform), Platforms(r, kind)[platform];
            new_.status == Some(Verified) && new_.verified == Some(true) &&
            new_.lastSynced == Some(now) && new_.url == old_.url
  {
    var e := Entry(Platforms(p, kind), platform);
    WithEntry(p, kind, platform, e.(status := Some(Verified), verified := Some(true), lastSynced := Some(now)))
  }

  /** `updatePlatformUrl`: only the entry's url changes. */
  function UpdatePlatformUrl(p: UserProfile, kind: PlatformKind, platform: string, url: string): (r: UserProfile)
    ensures EditsOnly(p, r, kind, platform)
    ensures var old_, new_ := Entry(Platforms(p, kind), platform), Platforms(r, kind)[platform];
            new_.url == Some(url) && new_.status == old_.status &&
            new_.verified == old_.verified && new_.lastSynced == old_.lastSynced
  {
    var e := Entry(Platforms(p, kind), platform);
    WithEntry(p, kind, platform, e.(url := Some(url)))
  }

  /** A verification that runs to its end leaves the url as it was and the
    * entry verified, whatever the entry's status before. */
  lemma VerificationCompletes(p: UserProfile, kind: PlatformKind, platform: string, now: string)
    ensures var r := FinishVerification(StartVerification(p, kind, platform), kind, platform, now);
            var e := Platforms(r, kind)[platform];
            e.status == Some(Verified) && e.verified == Some(true) && e.lastSynced == Some(now) &&
            e.url == Entry(Platforms(p, kind), platform).url
  {
  }

  // ---------------------------------------------------------------------
  // Legal documents
  // ---------------------------------------------------------------------

  /** `p.legalDocuments || []`. */
  function Documents(p: UserProfile): seq<LegalDocument> {
    p.legalDocuments.GetOr([])
  }

  /** `findIndex(d => d.id === id)`, None for -1. */
  function FindDocument(docs: seq<LegalDocument>, id: string): (r: Option<nat>)
    ensures r.Some? ==> r.value < |docs| && docs[r.value].id == id &&
                        forall j :: 0 <= j < r.value ==> docs[j].id != id
    ensures r.None? ==> forall j :: 0 <= j < |docs| ==> docs[j].id != id
  {
    if |docs| == 0 then None
    else if docs[0].id == id then Some(0)
    else match FindDocument(docs[1..], id)
      case None => None
      case Some(i) => Some(i + 1)
  }

  /** No two documents share an id. */
  predicate UniqueIds(docs: seq<LegalDocument>) {
    forall i, j :: 0 <= i < j < |docs| ==> docs[i].id != docs[j].id
  }

  /** `saveLegalDocument`'s update: a document with the same id is replaced in
    * place, otherwise the document goes at the end. */
  function SaveDocument(docs: seq<LegalDocument>, doc: LegalDocument): (r: seq<LegalDocument>)
    ensures FindDocument(docs, doc.id).Some? ==>
              |r| == |docs| && r[FindDocument(docs, doc.id).value] == doc &&
              forall j :: 0 <= j < |docs| && j != FindDocument(docs, doc.id).value ==> r[j] == docs[j]
    ensures FindDocument(docs, doc.id).None? ==> |r| == |docs| + 1 && r[..|docs|] == docs && r[|docs|] == doc
    ensures doc in r
  {
    match FindDocument(docs, doc.id)
    case Some(i) => docs[i := doc]
    case None => docs + [doc]
  }

  /** Saving keeps ids unique when they were. */
  lemma SaveKeepsIdsUnique(docs: seq<LegalDocument>, doc: LegalDocument)
    requires UniqueIds(docs)
    ensures UniqueIds(SaveDocument(docs, doc))
  {
  }

  /** Saving the same document twice is saving it once. */
  lemma SaveIdempotent(docs: seq<LegalDocument>, doc: LegalDocument)
    ensures SaveDocument(SaveDocument(docs, doc), doc) == SaveDocument(docs, doc)
  {
    var once := SaveDocument(docs, doc);
    match FindDocument(docs, doc.id)
    case Some(i) =>
      assert forall j :: 0 <= j < i ==> once[j].id != doc.id;
      assert FindDocument(once, doc.id) == Some(i);
    case None =>
      assert forall j :: 0 <= j < |docs| ==> once[j].id != doc.id;
      assert FindDocument(once, doc.id) == Some(|docs|);
  }

  /** `deleteLegalDocument`'s filter. */
  function DeleteDocument(docs: seq<LegalDocument>, id: string): (r: seq<LegalDocument>)
    ensures forall d :: d in r <==> d in docs && d.id != id
  {
    if |docs| == 0 then []
    else if docs[0].id == id then DeleteDocument(docs[1..], id)
    else [docs[0]] + DeleteDocument(docs[1..], id)
  }

  /** The documents that stay keep their order. */
  lemma {:induction false} DeleteKeepsOrder(docs: seq<LegalDocument>, id: string)
    ensures IsSubsequence(DeleteDocument(docs, id), docs)
  {
    if |docs| > 0 {
      DeleteKeepsOrder(docs[1..], id);
      var rest := DeleteDocument(docs[1..], id);
      if docs[0].id != id {
        assert ([docs[0]] + rest)[1..] == rest;
      }
    }
  }

  /** Deleting what was just saved removes every document with its id. */
  lemma SaveThenDelete(docs: seq<LegalDocument>, doc: LegalDocument)
    ensures forall d :: d in DeleteDocument(SaveDocument(docs, doc), doc.id) ==> d in docs && d.id != doc.id
  {
  }

  // ---------------------------------------------------------------------
  // Single text fields (`updateProfileField`)
  // ---------------------------------------------------------------------

  /** The profile's text fields the editor's form fields write. */
  datatype TextField =
    | ArtistName | StageName | Location | Bio | PrimaryGenre | MusicalInfluences | UniqueSound
    | FormalTraining | CurrentFocus | BiggestChallenge | UpcomingProjects | ContentStrategy
    | ProName | MlcId | SoundExchangeId

  /** The value of a text field; an optional field may be absent. */
  function Get(p: UserProfile, f: TextField): Option<string> {
    match f
    case ArtistName => Some(p.artistName)
    case StageName => p.stageName
    case Location => p.location
    case Bio => Some(p.bio)
    case PrimaryGenre => Some(p.primaryGenre)
    case MusicalInfluences => Some(p.musicalInfluences)
    case UniqueSound => Some(p.uniqueSound)
    case FormalTraining => Some(p.formalTraining)
    case CurrentFocus => Some(p.currentFocus)
    case BiggestChallenge => Some(p.biggestChallenge)
    case UpcomingProjects => Some(p.upcomingProjects)
    case ContentStrategy => Some(p.contentStrategy)
    case ProName => p.proName
    case MlcId => p.mlcId
    case SoundExchangeId => p.soundExchangeId
  }

  /** `{ ...p, [field]: value }` for a text field. */
  function UpdateField(p: UserProfile, f: TextField, value: string): (r: UserProfile)
    ensures Get(r, f) == Some(value)
  {
    match f
    case ArtistName => p.(artistName := value)
    case StageName => p.(stageName := Some(value))
    case Location => p.(location := Some(value))
    case Bio => p.(bio := value)
    case PrimaryGenre => p.(primaryGenre := value)
    case MusicalInfluences => p.(musicalInfluences := value)
    case UniqueSound => p.(uniqueSound := value)
    case FormalTraining => p.(formalTraining := value)
    case CurrentFocus => p.(currentFocus := value)
    case BiggestChallenge => p.(biggestChallenge := value)
    case UpcomingProjects => p.(upcomingProjects := value)
    case ContentStrategy => p.(contentStrategy := value)
    case ProName => p.(proName := Some(value))
    case MlcId => p.(mlcId := Some(value))
    case SoundExchangeId => p.(soundExchangeId := Some(value))
  }

  /** Writing one field leaves every other text field as it was. */
  lemma UpdateFieldKeepsOthers(p: UserProfile, f: TextField, g: TextField, value: string)
    requires f != g
    ensures Get(UpdateField(p, f, value), g) == Get(p, g)
  {
    // One written field at a time keeps each case to fourteen reads.
    match f
    case ArtistName =>
    case StageName =>
    case Location =>
    case Bio =>
    case PrimaryGenre =>
    case MusicalInfluences =>
    case UniqueSound =>
    case FormalTraining =>
    case CurrentFocus =>
    case BiggestChallenge =>
    case UpcomingProjects =>
    case ContentStrategy =>
    case ProName =>
    case MlcId =>
    case SoundExchangeId =>
  }

  /** Writing a field leaves the lists, maps, numbers and documents of the profile alone. */
  lemma UpdateFieldKeepsStructure(p: UserProfile, f: TextField, value: string)
    ensures var r := UpdateField(p, f, value);
            r.secondaryGenres == p.secondaryGenres && r.careerGoals == p.careerGoals &&
            r.skills == p.skills && r.yearsActive == p.yearsActive &&
            r.legalDocuments == p.legalDocuments && r.links == p.links &&
            r.socialMedia == p.socialMedia && r.musicPlatforms == p.musicPlatforms &&
            r.officialMusicProfiles == p.officialMusicProfiles &&
            r.personalSocialProfiles == p.personalSocialProfiles
  {
  }

  /** Writing a field its current value changes nothing. */
  lemma UpdateFieldWithSameValue(p: UserProfile, f: TextField)
    requires Get(p, f).Some?
    ensures UpdateField(p, f, Get(p, f).value) == p
  {
  }

  // ---------------------------------------------------------------------
  // The component
  // ---------------------------------------------------------------------

  datatype SaveStatus = Idle | Saving | Saved

  class ProfileEditorComponent {
    var editableProfile: UserProfile
    var showLegalEditor: bool
    var editingDocument: Option<LegalDocument>
    var saveStatus: SaveStatus
    /** The profiles handed to the profile service's `updateProfile`, oldest first. */
    var published: seq<UserProfile>

    /** The working copy starts as the service's profile. */
    constructor(serviceProfile: UserProfile)
      ensures editableProfile == serviceProfile && !showLegalEditor && editingDocument.None?
      ensures saveStatus == Idle && published == []
    {
      editableProfile := serviceProfile;
      showLegalEditor := false;
      editingDocument := None;
      saveStatus := Idle;
      published := [];
    }

    /** The constructor's effect: while signed in, the working copy follows the service's profile. */
    method OnProfileSignal(isAuthenticated: bool, serviceProfile: UserProfile)
      modifies this
      ensures editableProfile == if isAuthenticated then serviceProfile else old(editableProfile)
      ensures published == old(published) && saveStatus == old(saveStatus)
    {
      if isAuthenticated {
        editableProfile := serviceProfile;
      }
    }

    /** `saveProfile`: the working copy is handed over and the status shows 'saving'. */
    method SaveProfile()
      modifies this
      ensures saveStatus == Saving && published == old(published) + [editableProfile]
      ensures editableProfile == old(editableProfile)
    {
      saveStatus := Saving;
      published := published + [editableProfile];
    }

    /** The save timers: 'saved' after 500 ms, then 'idle' 2000 ms later. */
    method SaveTimerFired()
      modifies this
      ensures saveStatus == Saved && editableProfile == old(editableProfile) && published == old(published)
    {
      saveStatus := Saved;
    }

    method IdleTimerFired()
      modifies this
      ensures saveStatus == Idle && editableProfile == old(editableProfile) && published == old(published)
    {
      saveStatus := Idle;
    }

    method EditLink(kind: LinkKind, platform: string, value: string)
      modifies this
      ensures editableProfile == UpdateLink(old(editableProfile), kind, platform, value)
      ensures published == old(published)
    {
      editableProfile := UpdateLink(editableProfile, kind, platform, value);
    }

    method NewLink(kind: LinkKind, platform: string)
      modifies this
      ensures editableProfile == AddLink(old(editableProfile), kind, platform)
      ensures published == old(published)
    {
      editableProfile := AddLink(editableProfile, kind, platform);
    }

    method DropLink(kind: LinkKind, platform: string)
      modifies this
      ensures editableProfile == RemoveLink(old(editableProfile), kind, platform)
      ensures published == old(published)
    {
      editableProfile := RemoveLink(editableProfile, kind, platform);
    }

    /** `openNewDocument` / `openEditDocument`. */
    method OpenDocument(doc: Option<LegalDocument>)
      modifies this
      ensures editingDocument == doc && showLegalEditor
      ensures editableProfile == old(editableProfile) && published == old(published)
    {
      editingDocument := doc;
      showLegalEditor := true;
    }

    /** `saveLegalDocument`: upsert by id, then close the editor. */
    method SaveLegalDocument(doc: LegalDocument)
      modifies this
      ensures editableProfile == old(editableProfile).(legalDocuments := Some(SaveDocument(Documents(old(editableProfile)), doc)))
      ensures !showLegalEditor && published == old(published)
    {
      var docs := Documents(editableProfile);
      var index := FindDocument(docs, doc.id);
      var updated: seq<LegalDocument>;
      if index.Some? {
        updated := docs[index.value := doc];
      } else {
        updated := docs + [doc];
      }
      editableProfile := editableProfile.(legalDocuments := Some(updated));
      showLegalEditor := false;
    }

    /** `deleteLegalDocument`. */
    method DeleteLegalDocument(id: string)
      modifies this
      ensures editableProfile == old(editableProfile).(legalDocuments := Some(DeleteDocument(Documents(old(editableProfile)), id)))
      ensures showLegalEditor == old(showLegalEditor) && published == old(published)
    {
      editableProfile := editableProfile.(legalDocuments := Some(DeleteDocument(Documents(editableProfile), id)));
    }

    /** `verifyPlatform`, up to its timer: the entry shows 'syncing'. */
    method VerifyPlatform(kind: PlatformKind, platform: string)
      modifies this
      ensures editableProfile == StartVerification(old(editableProfile), kind, platform)
      ensures published == old(published)
    {
      editableProfile := StartVerification(editableProfile, kind, platform);
    }

    /** `verifyPlatform`'s timer, `now` being the clock's ISO text: the entry
      * is verified and the working copy handed to the profile service. */
    method VerificationTimerFired(kind: PlatformKind, platform: string, now: string)
      modifies this
      ensures editableProfile == FinishVerification(old(editableProfile), kind, platform, now)
      ensures published == old(published) + [editableProfile]
    {
      editableProfile := FinishVerification(editableProfile, kind, platform, now);
      published := published + [editableProfile];
    }

    method EditPlatformUrl(kind: PlatformKind, platform: string, url: string)
      modifies this
      ensures editableProfile == UpdatePlatformUrl(old(editableProfile), kind, platform, url)
      ensures published == old(published)
    {
      editableProfile := UpdatePlatformUrl(editableProfile, kind, platform, url);
    }

    method UpdateProfileField(f: TextField, value: string)
      modifies this
      ensures editableProfile == UpdateField(old(editableProfile), f, value)
      ensures published == old(published)
    {
      editableProfile := UpdateField(editableProfile, f, value);
    }
  }
}
