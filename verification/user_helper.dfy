/** UserHelper: the display name and the contact picture for a phone number, with the contacts
    provider's answers passed in. */
module UserHelper {
  import opened Wrappers

  /** What a provider query hands back: null, or a cursor on its rows (only the first is read). */
  datatype Cursor<T> = NullCursor | Rows(first: Option<T>)

  /** A lookup's answer and whether the cursor was closed afterwards. */
  datatype Lookup<T> = Lookup(value: T, closed: bool)

  datatype Bitmap = Bitmap(width: nat, height: nat)

  /** The side of the avatar getContactPicture scales to. */
  const AvatarSide: nat := 60

  /** getName(number): the first row's DISPLAY_NAME (which may itself be null), falling back to
      the number. The result is null only when the number is. */
  function GetName(number: Option<string>, cursor: Cursor<Option<string>>): (r: Lookup<Option<string>>)
    ensures r.closed <==> cursor.Rows?
    ensures cursor.Rows? && cursor.first.Some? && cursor.first.value.Some? ==> r.value == cursor.first.value
    ensures !(cursor.Rows? && cursor.first.Some? && cursor.first.value.Some?) ==> r.value == number
  {
    var caller := if cursor.Rows? && cursor.first.Some? then cursor.first.value else None;
    Lookup(if caller.None? then number else caller, cursor.Rows?)
  }

  /** A non-null number always gets a non-null name. */
  lemma NameNeverNull(number: string, cursor: Cursor<Option<string>>)
    ensures GetName(Some(number), cursor).value.Some?
  {
  }

  /** The contact's photo stream: absent, or present, with the bitmap BitmapFactory decodes from
      it (null when it cannot). */
  datatype Photo = NoStream | Stream(decoded: Option<Bitmap>)

  /** The ways getContactPicture can fail: moveToFirst on a null cursor, or scaling a bitmap
      that did not decode. */
  datatype Crash = NullCursorCrash | NullBitmapCrash

  /** getContactPicture(number): the photo of the first matching contact scaled to 60 x 60, or
      null when no contact matches or it has no photo. */
  function GetContactPicture(cursor: Cursor<nat>, photo: Photo): (r: Result<Lookup<Option<Bitmap>>, Crash>)
    ensures cursor.NullCursor? ==> r == Failure(NullCursorCrash)
    ensures r.Success? ==> r.value.closed
    ensures r.Success? && r.value.value.Some? ==> r.value.value.value == Bitmap(AvatarSide, AvatarSide)
  {
    match cursor
    case NullCursor => Failure(NullCursorCrash)
    case Rows(first) =>
      if first.None? then Success(Lookup(None, true))
      else match photo
        case NoStream => Success(Lookup(None, true))
        case Stream(decoded) =>
          if decoded.None? then Failure(NullBitmapCrash)
          else Success(Lookup(Some(Bitmap(AvatarSide, AvatarSide)), true))
  }

  /** The picture lookup fails exactly on a null cursor or a photo that does not decode; it
      answers a picture exactly when a contact matched and has a decodable photo. */
  lemma PictureCases(cursor: Cursor<nat>, photo: Photo)
    ensures var r := GetContactPicture(cursor, photo);
      var matched := cursor.Rows? && cursor.first.Some?;
      (r.Failure? <==> cursor.NullCursor? || (matched && photo.Stream? && photo.decoded.None?))
      && (r.Success? ==> (r.value.value.Some? <==> matched && photo.Stream?))
  {
  }
}
