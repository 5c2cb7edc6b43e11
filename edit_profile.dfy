/** The edit-profile dialog: the avatar initials, the checks an avatar file
    must pass, the storage path it is uploaded to, and the `uploading` and
    `loading` flags around the two requests. The storage upload, the public
    URL, the profile update and the random part of the file name are
    parameters. */
module EditProfile {
  import opened Wrappers
  import opened Strings

  // ---------------------------------------------------------------------
  // Initials

  /** `getInitials`: the upper-cased first character of the name, else of
      the e-mail address, else "U". */
  function Initials(fullName: string, email: Option<string>): (r: string)
    ensures |r| == 1
    ensures fullName != "" ==> r == [UpperChar(fullName[0])]
    ensures fullName == "" && email.Some? && email.value != "" ==> r == [UpperChar(email.value[0])]
    ensures fullName == "" && (email.None? || email.value == "") ==> r == "U"
  {
    if fullName != "" then [UpperChar(fullName[0])]
    else if email.Some? && email.value != "" then [UpperChar(email.value[0])]
    else "U"
  }

  /** The initials depend only on the first character of what they are
      taken from, and an ASCII lower-case letter comes out in upper case. */
  lemma InitialsOfFirstCharacter(fullName: string, other: string, email: Option<string>)
    requires fullName != "" && other != "" && fullName[0] == other[0]
    ensures Initials(fullName, email) == Initials(other, None)
    ensures 'a' <= fullName[0] <= 'z' ==> 'A' <= Initials(fullName, email)[0] <= 'Z'
  {
  }

  // ---------------------------------------------------------------------
  // Avatar file checks

  /** The selected file: its name, MIME type and size in bytes. */
  datatype File = File(name: string, mimeType: string, size: int)

  /** The largest accepted avatar: two mebibytes. */
  const MaxAvatarBytes: int := 2 * 1024 * 1024

  const ImagePrefix: string := "image/"

  /** The outcome of the two checks, in the order they run. */
  datatype FileCheck = NotAnImage | TooLarge | Accepted

  /** The type check runs first, so a large non-image file is reported as
      not an image; a file of exactly two mebibytes is accepted. */
  function CheckFile(file: File): (r: FileCheck)
    ensures r == NotAnImage <==> !IsPrefix(ImagePrefix, file.mimeType)
    ensures r == TooLarge <==> IsPrefix(ImagePrefix, file.mimeType) && file.size > MaxAvatarBytes
    ensures r == Accepted <==> IsPrefix(ImagePrefix, file.mimeType) && file.size <= MaxAvatarBytes
  {
    if !IsPrefix(ImagePrefix, file.mimeType) then NotAnImage
    else if file.size > MaxAvatarBytes then TooLarge
    else Accepted
  }

  /** The size limit is inclusive: 2097152 bytes pass, one byte more does
      not. */
  lemma SizeLimitIsInclusive(name: string, mimeType: string)
    requires IsPrefix(ImagePrefix, mimeType)
    ensures MaxAvatarBytes == 2097152
    ensures CheckFile(File(name, mimeType, 2097152)) == Accepted
    ensures CheckFile(File(name, mimeType, 2097153)) == TooLarge
  {
  }

  /** `file.name.split('.').pop()`: the text after the last '.', or the
      whole name when it has none. */
  function Extension(name: string): (ext: string)
    ensures '.' !in ext
    ensures |ext| <= |name| && name[|name| - |ext|..] == ext
    ensures '.' !in name ==> ext == name
    ensures '.' in name ==> |ext| < |name| && name[|name| - |ext| - 1] == '.'
  {
    LastPieceIsSuffix(name, '.');
    LastPiece(name, '.')
  }

  /** The storage path: the user id (the text "undefined" without a user),
      the random part and the extension. */
  function UploadPath(userId: Option<string>, random: string, name: string): (path: string)
    ensures IsPrefix("avatars/", path)
  {
    var id := if userId.Some? then userId.value else "undefined";
    var path := "avatars/" + id + "-" + random + "." + Extension(name);
    assert path[..8] == "avatars/";
    path
  }

  /** Whatever the id and the random part contain, the extension of the
      storage path is the extension of the chosen file. */
  lemma UploadPathKeepsExtension(userId: Option<string>, random: string, name: string)
    ensures Extension(UploadPath(userId, random, name)) == Extension(name)
  {
    var id := if userId.Some? then userId.value else "undefined";
    var ext := Extension(name);
    var a := "avatars/" + id + "-" + random;
    assert UploadPath(userId, random, name) == a + ['.'] + ext;
    LastPieceAfterSeparator(a, ext, '.');
  }

  /** The text after the last separator of `a + [sep] + b` is `b` when `b`
      holds no separator. */
  lemma LastPieceAfterSeparator(a: string, b: string, sep: char)
    requires sep !in b
    ensures LastPiece(a + [sep] + b, sep) == b
  {
    var s := a + [sep] + b;
    var p := LastPiece(s, sep);
    LastPieceIsSuffix(s, sep);
    assert s[|s| - |b| - 1] == sep;
    assert sep in s;
    assert |p| == |b|;
    assert p == s[|s| - |b|..] == b;
  }

  // ---------------------------------------------------------------------
  // The dialog

  /** The toast a handler raises. */
  datatype Toast = ErrorToast(description: string) | SuccessToast(description: string)

  const NotAnImageMessage: string := "Please upload an image file"
  const TooLargeMessage: string := "File size must be less than 2MB"
  const UploadFailedMessage: string := "Failed to upload profile picture"
  const UploadedMessage: string := "Profile picture uploaded successfully"
  const UpdateFailedMessage: string := "Failed to update profile"
  const UpdatedMessage: string := "Profile updated successfully"

  class ProfileForm {
    var fullName: string
    var avatarUrl: string
    var uploading: bool
    var loading: bool

    /** The form starts from the account's name and avatar, or empty text. */
    constructor (name: Option<string>, avatar: Option<string>)
      ensures fullName == (if name.Some? then name.value else "")
      ensures avatarUrl == (if avatar.Some? then avatar.value else "")
      ensures !uploading && !loading
    {
      fullName := if name.Some? then name.value else "";
      avatarUrl := if avatar.Some? then avatar.value else "";
      uploading := false;
      loading := false;
    }

    /** `handleAvatarUpload` for the chosen file (`None` when nothing was
        chosen). `uploaded` is the storage's verdict on the upload (false
        when it fails) and `publicUrl` the address it hands back. The
        flag is set on entry and cleared on every way out. Returns the
        toast and the path the file went to, if it was sent. */
    method HandleAvatarUpload(file: Option<File>, userId: Option<string>, random: string,
                              uploaded: bool, publicUrl: string)
      returns (toast: Option<Toast>, path: Option<string>)
      modifies this
      ensures !uploading
      ensures fullName == old(fullName) && loading == old(loading)
      ensures file.None? ==> toast.None? && path.None? && avatarUrl == old(avatarUrl)
      ensures file.Some? && CheckFile(file.value) == NotAnImage ==>
        toast == Some(ErrorToast(NotAnImageMessage)) && path.None? && avatarUrl == old(avatarUrl)
      ensures file.Some? && CheckFile(file.value) == TooLarge ==>
        toast == Some(ErrorToast(TooLargeMessage)) && path.None? && avatarUrl == old(avatarUrl)
      ensures file.Some? && CheckFile(file.value) == Accepted ==>
        && path == Some(UploadPath(userId, random, file.value.name))
        && (uploaded ==> toast == Some(SuccessToast(UploadedMessage)) && avatarUrl == publicUrl)
        && (!uploaded ==> toast == Some(ErrorToast(UploadFailedMessage)) && avatarUrl == old(avatarUrl))
    {
      uploading := true;
      toast, path := None, None;
      if file.None? {
        uploading := false;
        return;
      }
      var f := file.value;
      match CheckFile(f) {
        case NotAnImage =>
          toast := Some(ErrorToast(NotAnImageMessage));
        case TooLarge =>
          toast := Some(ErrorToast(TooLargeMessage));
        case Accepted =>
          path := Some(UploadPath(userId, random, f.name));
          if uploaded {
            avatarUrl := publicUrl;
            toast := Some(SuccessToast(UploadedMessage));
          } else {
            toast := Some(ErrorToast(UploadFailedMessage));
          }
      }
      uploading := false;
    }

    method SetFullName(v: string)
      modifies this
      ensures fullName == v
      ensures avatarUrl == old(avatarUrl) && uploading == old(uploading) && loading == old(loading)
    {
      fullName := v;
    }

    /** `handleSave`: sends the name and avatar address; `updated` is the
        verdict of the profile update. The dialog asks to close only on
        success, and `loading` is false again afterwards. */
    method HandleSave(updated: bool) returns (toast: Toast, close: bool, sent: (string, string))
      modifies this
      ensures !loading
      ensures fullName == old(fullName) && avatarUrl == old(avatarUrl) && uploading == old(uploading)
      ensures sent == (fullName, avatarUrl)
      ensures close <==> updated
      ensures toast == (if updated then SuccessToast(UpdatedMessage) else ErrorToast(UpdateFailedMessage))
    {
      loading := true;
      sent := (fullName, avatarUrl);
      if updated {
        toast, close := SuccessToast(UpdatedMessage), true;
      } else {
        toast, close := ErrorToast(UpdateFailedMessage), false;
      }
      loading := false;
    }
  }

  /** A file that passes both checks is uploaded under a path whose
      extension is its own; the two rejections keep the avatar. */
  lemma AcceptedFileKeepsExtension(file: File, userId: Option<string>, random: string)
    requires CheckFile(file) == Accepted
    ensures IsPrefix(ImagePrefix, file.mimeType) && file.size <= MaxAvatarBytes
    ensures Extension(UploadPath(userId, random, file.name)) == Extension(file.name)
  {
    UploadPathKeepsExtension(userId, random, file.name);
  }
}
