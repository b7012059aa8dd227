/** UserTile: the label and avatar it shows for USER_MY_NUMBERS, and what makes it look again. */
module UserTile {
  import opened Wrappers
  import opened SettingsStore
  import opened TileCommon
  import H = UserHelper

  datatype Label = NameLabel(name: string) | DefaultUserLabel
  datatype Avatar = ContactAvatar(bitmap: H.Bitmap) | DefaultAvatar

  /** mLabel and userAvatar, and whether the tile's view exists. */
  datatype State = State(caption: Label, avatar: Avatar, hasView: bool)

  /** The contacts provider's answers for the stored number. */
  datatype Contacts = Contacts(nameCursor: H.Cursor<Option<string>>, idCursor: H.Cursor<nat>, photo: H.Photo)

  /** Why a look-up did not finish: the picture lookup failed, or the view to draw in is missing. */
  datatype Failure = PictureFailed(crash: H.Crash) | NoView

  /** setUserTileInfo: label and avatar together, then updateQuickSettings, which needs the view. */
  function SetUserTileInfo(s: State, caption: Label, avatar: Avatar): (r: Result<(State, seq<Effect>), Failure>)
    ensures r.Success? <==> s.hasView
    ensures r.Success? ==> r.value.0 == s.(caption := caption, avatar := avatar) && r.value.1 == [UpdateView]
    ensures r.Success? ==> r.value.0.hasView && r.value.0.caption == caption && r.value.0.avatar == avatar
    ensures r.Failure? ==> r.error == NoView
  {
    if s.hasView then Success((s.(caption := caption, avatar := avatar), [UpdateView])) else Failure(NoView)
  }

  /** queryForUserInformation. */
  function Query(s: State, settings: Settings, contacts: Contacts): (r: Result<(State, seq<Effect>), Failure>)
    ensures r.Success? ==> s.hasView && r.value.0.hasView && r.value.1 == [UpdateView]
    ensures r.Failure? ==> (r.error.PictureFailed? <==>
      GetString(settings, UserMyNumbers).Some? && H.GetContactPicture(contacts.idCursor, contacts.photo).Failure?)
    ensures !s.hasView ==> r.Failure?
  {
    match GetString(settings, UserMyNumbers)
    case None => SetUserTileInfo(s, DefaultUserLabel, DefaultAvatar)
    case Some(numbers) =>
      var name := H.GetName(Some(numbers), contacts.nameCursor).value;
      match H.GetContactPicture(contacts.idCursor, contacts.photo)
      case Failure(crash) => Failure(PictureFailed(crash))
      case Success(picture) =>
        var avatar := match picture.value case Some(b) => ContactAvatar(b) case None => DefaultAvatar;
        match name
        case Some(n) => SetUserTileInfo(s, NameLabel(n), avatar)
        case None => SetUserTileInfo(s, DefaultUserLabel, avatar)
  }

  /** What a finished look-up shows: with no number stored, the default label and avatar; with
      one, the contact's name (or the number itself) and the contact's picture when there is
      one. The default label therefore appears exactly when no number is stored. */
  lemma QueryShows(s: State, settings: Settings, contacts: Contacts)
    requires s.hasView
    ensures var r := Query(s, settings, contacts);
      var numbers := GetString(settings, UserMyNumbers);
      (r.Failure? <==> numbers.Some? && H.GetContactPicture(contacts.idCursor, contacts.photo).Failure?)
      && (r.Success? ==>
            (r.value.0.caption == DefaultUserLabel <==> numbers.None?)
            && (numbers.None? ==> r.value.0.avatar == DefaultAvatar)
            && (numbers.Some? ==>
                  r.value.0.caption == NameLabel(H.GetName(numbers, contacts.nameCursor).value.value)
                  && (r.value.0.avatar.ContactAvatar? <==> H.GetContactPicture(contacts.idCursor, contacts.photo).value.value.Some?)))
  {
    if GetString(settings, UserMyNumbers).Some? {
      H.NameNeverNull(GetString(settings, UserMyNumbers).value, contacts.nameCursor);
    }
  }

  /** Showing the same label and avatar twice leaves the tile as showing them once. */
  lemma SetUserTileInfoIdempotent(s: State, caption: Label, avatar: Avatar)
    requires s.hasView
    ensures var once := SetUserTileInfo(s, caption, avatar);
      once.Success? && SetUserTileInfo(once.value.0, caption, avatar) == once
  {
  }

  /** What makes the tile look again. */
  datatype Trigger = Broadcast | UriChange | Resources | PostCreated | Clicked

  /** onReceive, onChangeUri, updateResources, onPostCreate and the click listener. */
  function Refresh(s: State, t: Trigger, settings: Settings, contacts: Contacts): (r: Result<(State, seq<Effect>), Failure>)
    ensures r == Query(s, settings, contacts)
  {
    match t
    case Broadcast => Query(s, settings, contacts)
    case UriChange => Query(s, settings, contacts)
    case Resources => Query(s, settings, contacts)
    case PostCreated => Query(s, settings, contacts)
    case Clicked => Query(s, settings, contacts)
  }

  /** Every trigger runs the same look-up, so they all leave the tile alike; updateResources
      has no guard here, unlike the base class, so before setup it fails for want of a view. */
  lemma TriggersAgree(s: State, t1: Trigger, t2: Trigger, settings: Settings, contacts: Contacts)
    ensures Refresh(s, t1, settings, contacts) == Refresh(s, t2, settings, contacts)
    ensures !s.hasView && H.GetContactPicture(contacts.idCursor, contacts.photo).Success?
      ==> Refresh(s, Resources, settings, contacts) == Failure(NoView)
  {
  }
}
