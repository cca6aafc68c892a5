/** The profile page: the form filled from the signed-in user's metadata, its
    validation, the avatar picker's checks and the submit handler that uploads a new
    avatar and saves the profile through the auth provider. */
module ProfilePage {
  import opened Wrappers
  import opened Text
  import opened JsValues
  import opened Remote
  import AuthContext

  const NameMessage: string := "Full name must be at least 3 characters long"
  const EmailMessage: string := "Please enter a valid email address"
  const MobileMessage: string := "Please enter a valid mobile number with country code (e.g., +1234567890)"
  const PlaceMessage: string := "City and country are required"
  const TypeMessage: string := "Please upload only JPG, PNG, or GIF files"
  const SizeMessage: string := "Image size should be less than 5MB"
  const SavedMessage: string := "Profile updated successfully"
  const SaveFallback: string := "Failed to update profile"
  const DeleteFallback: string := "Failed to delete account"

  /** The largest accepted avatar, in bytes (5 MiB). */
  const MaxImageBytes: nat := 5 * 1024 * 1024

  /** The page's form state. `avatarUrl` is `None` for JavaScript `null`. */
  datatype ProfileForm = ProfileForm(
    fullName: string, email: string, gender: string, mobileNumber: string,
    city: string, country: string, avatarUrl: Option<string>,
    currentPassword: string, newPassword: string, confirmNewPassword: string)

  /** The form before any user is known. */
  const InitialForm: ProfileForm :=
    ProfileForm("", "", "male", "", "", "", None, "", "", "")

  /** `x || fallback` on an optional string: absent and empty both fall back. */
  function OrElse(x: Option<string>, fallback: string): (r: string)
    ensures AuthContext.Given(x) ==> r == x.value
    ensures !AuthContext.Given(x) ==> r == fallback
  {
    if AuthContext.Given(x) then x.value else fallback
  }

  /** `x || null` on an optional string. */
  function OrNull(x: Option<string>): (r: Option<string>)
    ensures r.Some? <==> AuthContext.Given(x)
    ensures r.Some? ==> r == x
  {
    if AuthContext.Given(x) then x else None
  }

  /** The effect run when a user is present: the profile properties are replaced from
      the user's metadata and e-mail, the password fields are kept. */
  function PopulateForm(prev: ProfileForm, user: AuthContext.User): ProfileForm
  {
    var m := user.metadata;
    prev.(fullName := OrElse(m.fullName, ""), email := OrElse(user.email, ""),
          avatarUrl := OrNull(m.avatarUrl), gender := OrElse(m.gender, "male"),
          mobileNumber := OrElse(m.mobileNumber, ""), city := OrElse(m.city, ""),
          country := OrElse(m.country, ""))
  }

  /** A user with no metadata at all gets the defaults: empty text, "male", no avatar;
      the password fields are untouched. */
  lemma PopulateDefaults(prev: ProfileForm, id: string)
    ensures var none := AuthContext.ProfileFields(None, None, None, None, None, None);
            var f := PopulateForm(prev, AuthContext.User(id, None, none));
            f.fullName == "" && f.email == "" && f.gender == "male" && f.mobileNumber == ""
            && f.city == "" && f.country == "" && f.avatarUrl == None
            && f.currentPassword == prev.currentPassword && f.newPassword == prev.newPassword
            && f.confirmNewPassword == prev.confirmNewPassword
  {
  }

  /** The properties the submit handler passes to `updateProfile`. */
  function SubmittedFields(form: ProfileForm, avatarUrl: Option<string>): AuthContext.ProfileFields
  {
    AuthContext.ProfileFields(Some(form.fullName), avatarUrl, Some(form.gender),
                              Some(form.mobileNumber), Some(form.city), Some(form.country))
  }

  /** Filling the form from a user whose metadata is fully given and saving it
      without picking a new avatar writes that same metadata back. */
  lemma PopulateSubmitRoundTrip(prev: ProfileForm, user: AuthContext.User)
    requires var m := user.metadata;
             AuthContext.Given(m.fullName) && AuthContext.Given(m.gender)
             && AuthContext.Given(m.mobileNumber) && AuthContext.Given(m.city)
             && AuthContext.Given(m.country) && (m.avatarUrl == None || AuthContext.Given(m.avatarUrl))
    ensures var f := PopulateForm(prev, user); SubmittedFields(f, f.avatarUrl) == user.metadata
  {
  }

  // ---------------------------------------------------------------- e-mail

  /** A character of the class `[^\s@]`. */
  predicate EmailChar(c: char) { !IsJsWhitespace(c) && c != '@' }

  /** A match of `[^\s@]+`. */
  predicate EmailRun(t: string) { |t| > 0 && forall k :: 0 <= k < |t| ==> EmailChar(t[k]) }

  /** The pattern `^[^\s@]+@[^\s@]+\.[^\s@]+$`, read off the regular expression: the
      string splits at an '@' (index i) and a later '.' (index j) into three runs. */
  predicate EmailPattern(s: string)
  {
    exists i, j :: 0 < i && i + 1 < j && j + 1 < |s| && s[i] == '@' && s[j] == '.'
                   && EmailRun(s[..i]) && EmailRun(s[i + 1..j]) && EmailRun(s[j + 1..])
  }

  predicate NoWhitespace(s: string) { forall k :: 0 <= k < |s| ==> !IsJsWhitespace(s[k]) }

  /** A '.' that is neither the first nor the last character of `d`. */
  predicate DotInside(d: string) { |d| >= 3 && '.' in d[1..|d| - 1] }

  /** The e-mail rule in words: exactly one '@', no whitespace, a non-empty part before
      the '@', and after it a domain holding an inner '.'. */
  predicate ValidEmail(s: string)
  {
    var at := IndexOf(s, '@');
    Count(s, '@') == 1 && NoWhitespace(s) && 0 < at < |s| && DotInside(s[at + 1..])
  }

  /** Counting a character around one of its occurrences. */
  lemma CountAround(s: string, i: nat, c: char)
    requires i < |s| && s[i] == c
    ensures Count(s, c) == Count(s[..i], c) + 1 + Count(s[i + 1..], c)
  {
    assert s == s[..i] + s[i..];
    CountAppend(s[..i], s[i..], c);
    assert s[i..][1..] == s[i + 1..];
  }

  /** The regular expression accepts exactly the strings the rule in words describes. */
  lemma EmailPatternIff(s: string)
    ensures EmailPattern(s) <==> ValidEmail(s)
  {
    if EmailPattern(s) {
      PatternIsValid(s);
    }
    if ValidEmail(s) {
      ValidIsPattern(s);
    }
  }

  /** Every match of the pattern satisfies the rule in words. */
  lemma PatternIsValid(s: string)
    requires EmailPattern(s)
    ensures ValidEmail(s)
  {
    var i, j :| 0 < i && i + 1 < j && j + 1 < |s| && s[i] == '@' && s[j] == '.'
                && EmailRun(s[..i]) && EmailRun(s[i + 1..j]) && EmailRun(s[j + 1..]);
    EmailOfSplit(s, i, j);
  }

  /** Every string the rule in words accepts matches the pattern. */
  lemma ValidIsPattern(s: string)
    requires ValidEmail(s)
    ensures EmailPattern(s)
  {
    var at := IndexOf(s, '@');
    var d := s[at + 1..];
    var j := at + 2 + IndexOf(d[1..|d| - 1], '.');
    SplitOfEmail(s, at, j);
    assert 0 < at && at + 1 < j && j + 1 < |s| && s[at] == '@' && s[j] == '.'
           && EmailRun(s[..at]) && EmailRun(s[at + 1..j]) && EmailRun(s[j + 1..]);
  }

  /** The regex direction: a three-run split satisfies the rule in words. */
  lemma EmailOfSplit(s: string, i: nat, j: nat)
    requires 0 < i && i + 1 < j && j + 1 < |s| && s[i] == '@' && s[j] == '.'
    requires EmailRun(s[..i]) && EmailRun(s[i + 1..j]) && EmailRun(s[j + 1..])
    ensures ValidEmail(s)
  {
    assert '@' !in s[..i] by {
      forall k | 0 <= k < i ensures s[..i][k] != '@' { assert EmailChar(s[..i][k]); }
    }
    var at := IndexOf(s, '@');
    assert at == i;
    forall k | 0 <= k < |s| ensures !IsJsWhitespace(s[k]) && (k > i ==> s[k] != '@')
    {
      if k < i { assert EmailChar(s[..i][k]); }
      else if i < k < j { assert EmailChar(s[i + 1..j][k - i - 1]); }
      else if k > j { assert EmailChar(s[j + 1..][k - j - 1]); }
    }
    var d := s[i + 1..];
    assert '@' !in d by {
      forall k | 0 <= k < |d| ensures d[k] != '@' { assert d[k] == s[i + 1 + k]; }
    }
    CountAround(s, i, '@');
    CountAbsent(s[..i], '@');
    CountAbsent(d, '@');
    assert d[1..|d| - 1][j - i - 2] == '.';
  }

  /** The converse direction: the rule in words yields the three-run split at the
      '@' and the first inner '.' of the domain. */
  lemma SplitOfEmail(s: string, at: nat, j: nat)
    requires ValidEmail(s) && at == IndexOf(s, '@')
    requires var d := s[at + 1..]; j == at + 2 + IndexOf(d[1..|d| - 1], '.')
    ensures 0 < at && at + 1 < j && j + 1 < |s| && s[at] == '@' && s[j] == '.'
    ensures EmailRun(s[..at]) && EmailRun(s[at + 1..j]) && EmailRun(s[j + 1..])
  {
    var d := s[at + 1..];
    CountAround(s, at, '@');
    CountAbsent(s[..at], '@');
    CountAbsent(d, '@');
    var inner := d[1..|d| - 1];
    var k := IndexOf(inner, '.');
    assert s[j] == inner[k];
    forall m | at < m < |s| ensures s[m] != '@' { assert s[m] == d[m - at - 1]; }
    assert EmailRun(s[..at]) by {
      forall m | 0 <= m < at ensures EmailChar(s[..at][m]) { assert s[..at][m] == s[m]; }
    }
    var mid, tail := s[at + 1..j], s[j + 1..];
    assert EmailRun(mid) by {
      forall m | 0 <= m < |mid| ensures EmailChar(mid[m]) { assert mid[m] == s[at + 1 + m]; }
    }
    assert EmailRun(tail) by {
      forall m | 0 <= m < |tail| ensures EmailChar(tail[m]) { assert tail[m] == s[j + 1 + m]; }
    }
  }

  // ---------------------------------------------------------------- mobile

  /** The pattern `^\+[1-9]\d{1,14}$`. */
  predicate ValidMobile(s: string)
  {
    |s| >= 3 && s[0] == '+' && '1' <= s[1] <= '9' && |s| - 2 <= 14 && AllDigits(s[2..])
  }

  /** An accepted number is "+", a leading digit 1-9 and 1 to 14 further digits:
      3 to 16 characters, all digits after the "+". */
  lemma ValidMobileShape(s: string)
    requires ValidMobile(s)
    ensures 3 <= |s| <= 16 && s[0] == '+' && s[1] != '0'
    ensures forall k :: 1 <= k < |s| ==> IsDigit(s[k])
  {
    forall k | 1 <= k < |s| ensures IsDigit(s[k]) {
      if k >= 2 { assert s[k] == s[2..][k - 2]; }
    }
  }

  // ---------------------------------------------------------------- validation

  /** Every rule `validateForm` checks holds. */
  predicate Accepted(form: ProfileForm)
  {
    Utf16Length(form.fullName) >= 3 && EmailPattern(form.email)
    && (form.mobileNumber == "" || ValidMobile(form.mobileNumber))
    && form.city != "" && form.country != ""
  }

  /** `validateForm`: the message of the first failing rule, or `None` when the form
      may be submitted. The e-mail rule is checked with the rule in words. */
  function Validate(form: ProfileForm): (r: Option<string>)
    ensures r.None? <==> Accepted(form)
    ensures r == Some(NameMessage) <==> Utf16Length(form.fullName) < 3
    ensures r == Some(EmailMessage) <==> Utf16Length(form.fullName) >= 3 && !EmailPattern(form.email)
    ensures r == Some(MobileMessage) <==>
              Utf16Length(form.fullName) >= 3 && EmailPattern(form.email)
              && form.mobileNumber != "" && !ValidMobile(form.mobileNumber)
    ensures r == Some(PlaceMessage) <==>
              Utf16Length(form.fullName) >= 3 && EmailPattern(form.email)
              && (form.mobileNumber == "" || ValidMobile(form.mobileNumber))
              && (form.city == "" || form.country == "")
  {
    EmailPatternIff(form.email);
    if Utf16Length(form.fullName) < 3 then Some(NameMessage)
    else if !ValidEmail(form.email) then Some(EmailMessage)
    else if form.mobileNumber != "" && !ValidMobile(form.mobileNumber) then Some(MobileMessage)
    else if form.city == "" || form.country == "" then Some(PlaceMessage)
    else None
  }

  /** A form filled from a complete profile passes validation: a name of three or
      more characters, a well-formed e-mail, a valid or empty number, city and country. */
  lemma ValidateNames(form: ProfileForm)
    requires |form.fullName| >= 3 && ValidEmail(form.email)
    requires form.mobileNumber == "" && form.city != "" && form.country != ""
    ensures Validate(form) == None
  {
    EmailPatternIff(form.email);
  }

  // ---------------------------------------------------------------- avatar

  /** A file the avatar picker hands over. */
  datatype ImageFile = ImageFile(name: string, mimeType: string, size: nat)

  const AcceptedTypes: seq<string> := ["image/jpeg", "image/png", "image/gif"]

  /** The pattern `^image\/(jpeg|png|gif)$`, checked as a prefix and a subtype. */
  predicate ImageTypeMatches(t: string)
  {
    IsPrefix("image/", t) && t[6..] in ["jpeg", "png", "gif"]
  }

  /** The pattern accepts exactly the three listed MIME types. */
  lemma ImageTypeMatchesIff(t: string)
    ensures ImageTypeMatches(t) <==> t in AcceptedTypes
  {
    if ImageTypeMatches(t) {
      assert t == "image/" + t[6..];
      if t[6..] == "jpeg" { assert t == "image/jpeg"; }
      else if t[6..] == "png" { assert t == "image/png"; }
      else { assert t == "image/gif"; }
    }
    if t in AcceptedTypes {
      assert t[..6] == "image/";
      assert t[6..] == "jpeg" || t[6..] == "png" || t[6..] == "gif";
    }
  }

  /** The picker's checks: the type first, then the size. */
  function CheckImage(file: ImageFile): (r: Option<string>)
    ensures r.None? <==> file.mimeType in AcceptedTypes && file.size <= MaxImageBytes
    ensures r == Some(TypeMessage) <==> file.mimeType !in AcceptedTypes
    ensures r == Some(SizeMessage) <==> file.mimeType in AcceptedTypes && file.size > MaxImageBytes
  {
    ImageTypeMatchesIff(file.mimeType);
    if !ImageTypeMatches(file.mimeType) then Some(TypeMessage)
    else if file.size > MaxImageBytes then Some(SizeMessage)
    else None
  }

  /** A JPEG of exactly 5 MiB is accepted; one byte more is refused. */
  lemma FiveMiBBoundary(name: string)
    ensures CheckImage(ImageFile(name, "image/jpeg", 5242880)) == None
    ensures CheckImage(ImageFile(name, "image/jpeg", 5242881)) == Some(SizeMessage)
  {
  }

  /** The text after the file name's last '.' (the whole name when it has none). */
  function Extension(name: string): (ext: string)
    ensures '.' !in ext
  {
    var pieces := Split(name, '.');
    pieces[|pieces| - 1]
  }

  // ---------------------------------------------------------------- page

  /** What the page asks of storage and of the auth provider, in order. */
  datatype PageEffect =
    | UploadAvatar(owner: Option<string>, extension: string)
    | SaveProfile(fields: AuthContext.ProfileFields)
    | DeleteAccountCall
    | SignOutCall
    | Navigate(path: string)

  /** JavaScript truthiness of an optional string. */
  predicate Present(s: Option<string>) { s.Some? && s.value != "" }

  /** The page's state. `selectedFile` is the file input's current file, which the
      browser sets before the change handler runs, whether or not the handler
      accepts the file. */
  class Profile {
    var formData: ProfileForm
    var error: string
    var success: string
    var isUpdating: bool
    var imagePreview: Option<string>
    var selectedFile: Option<ImageFile>
    var effects: seq<PageEffect>

    constructor ()
      ensures formData == InitialForm && error == "" && success == "" && !isUpdating
      ensures imagePreview == None && selectedFile == None && effects == []
    {
      formData := InitialForm;
      error := "";
      success := "";
      isUpdating := false;
      imagePreview := None;
      selectedFile := None;
      effects := [];
    }

    /** The `[user]` effect: the form is refilled only when a user is present. */
    method OnUserChange(user: Option<AuthContext.User>)
      modifies this
      ensures user.Some? ==> formData == PopulateForm(old(formData), user.value)
      ensures user.None? ==> formData == old(formData)
      ensures error == old(error) && success == old(success) && isUpdating == old(isUpdating)
      ensures imagePreview == old(imagePreview) && selectedFile == old(selectedFile) && effects == old(effects)
    {
      if user.Some? {
        formData := PopulateForm(formData, user.value);
      }
    }

    /** `handleImageUpload`: a rejected file sets the error; an accepted one becomes the
        preview once the reader has produced `dataUrl`. */
    method HandleImageUpload(file: Option<ImageFile>, dataUrl: string)
      modifies this
      ensures selectedFile == file
      ensures file.None? ==> error == old(error) && imagePreview == old(imagePreview)
      ensures file.Some? && CheckImage(file.value).Some? ==>
                error == CheckImage(file.value).value && imagePreview == old(imagePreview)
      ensures file.Some? && CheckImage(file.value).None? ==>
                error == old(error) && imagePreview == Some(dataUrl)
      ensures formData == old(formData) && success == old(success) && isUpdating == old(isUpdating)
      ensures effects == old(effects)
    {
      selectedFile := file;
      if file.None? {
        return;
      }
      var problem := CheckImage(file.value);
      if problem.Some? {
        error := problem.value;
        return;
      }
      imagePreview := Some(dataUrl);
    }

    /** `handleUpdateProfile`. `upload` is the storage reply (`Some(url)`: stored, with
        the public URL of the path; `None`: no data); `saveFailure` is the error
        `updateProfile` returns, if any. */
    method HandleUpdateProfile(userId: Option<string>, upload: Outcome<Option<string>>,
                               saveFailure: Option<Failure>)
      modifies this
      ensures !isUpdating && formData == old(formData)
      ensures Validate(old(formData)).Some? ==>
                error == Validate(old(formData)).value && success == ""
                && effects == old(effects) && imagePreview == old(imagePreview)
                && selectedFile == old(selectedFile)
      ensures Validate(old(formData)).None? ==>
                var uploads := Present(old(imagePreview)) && old(selectedFile).Some?;
                var uploadEffects := if uploads then [UploadAvatar(userId, Extension(old(selectedFile).value.name))] else [];
                var uploadFailed := uploads && upload.Failed?;
                var avatarUrl := if uploads && upload.Success? && upload.data.Some? then upload.data else old(formData).avatarUrl;
                var failure := if uploadFailed then Some(upload.failure) else saveFailure;
                && effects == old(effects) + uploadEffects
                              + (if uploadFailed then [] else [SaveProfile(SubmittedFields(old(formData), avatarUrl))])
                && (failure.None? ==> success == SavedMessage && error == ""
                                      && imagePreview == None && selectedFile == None)
                && (failure.Some? ==> success == "" && error == MessageOr(failure.value, SaveFallback)
                                      && imagePreview == old(imagePreview) && selectedFile == old(selectedFile))
    {
      error := "";
      success := "";
      isUpdating := true;
      var problem := Validate(formData);
      if problem.Some? {
        error := problem.value;
        isUpdating := false;
        return;
      }
      Save(userId, upload, saveFailure);
    }

    /** The `try` block of `handleUpdateProfile`, entered with the messages cleared:
        the optional avatar upload, then the profile update. */
    method Save(userId: Option<string>, upload: Outcome<Option<string>>, saveFailure: Option<Failure>)
      requires error == "" && success == ""
      modifies this
      ensures !isUpdating && formData == old(formData)
      ensures var uploads := Present(old(imagePreview)) && old(selectedFile).Some?;
              var uploadEffects := if uploads then [UploadAvatar(userId, Extension(old(selectedFile).value.name))] else [];
              var uploadFailed := uploads && upload.Failed?;
              var avatarUrl := if uploads && upload.Success? && upload.data.Some? then upload.data else old(formData).avatarUrl;
              var failure := if uploadFailed then Some(upload.failure) else saveFailure;
              && effects == old(effects) + uploadEffects
                            + (if uploadFailed then [] else [SaveProfile(SubmittedFields(old(formData), avatarUrl))])
              && (failure.None? ==> success == SavedMessage && error == ""
                                    && imagePreview == None && selectedFile == None)
              && (failure.Some? ==> success == "" && error == MessageOr(failure.value, SaveFallback)
                                    && imagePreview == old(imagePreview) && selectedFile == old(selectedFile))
    {
      var avatarUrl := formData.avatarUrl;
      var failure: Option<Failure> := None;
      if Present(imagePreview) && selectedFile.Some? {
        effects := effects + [UploadAvatar(userId, Extension(selectedFile.value.name))];
        match upload {
          case Failed(f) => failure := Some(f);
          case Success(data) => if data.Some? { avatarUrl := data; }
        }
      }
      if failure.None? {
        effects := effects + [SaveProfile(SubmittedFields(formData, avatarUrl))];
        failure := saveFailure;
        if failure.None? {
          success := SavedMessage;
          imagePreview := None;
          selectedFile := None;
        }
      }
      if failure.Some? {
        error := MessageOr(failure.value, SaveFallback);
      }
      isUpdating := false;
    }

    /** `handleDeleteAccount`: on success the user is signed out and sent home. */
    method HandleDeleteAccount(deleteFailure: Option<Failure>)
      modifies this
      ensures deleteFailure.None? ==>
                effects == old(effects) + [DeleteAccountCall, SignOutCall, Navigate("/")] && error == old(error)
      ensures deleteFailure.Some? ==>
                effects == old(effects) + [DeleteAccountCall] && error == MessageOr(deleteFailure.value, DeleteFallback)
      ensures formData == old(formData) && success == old(success) && isUpdating == old(isUpdating)
      ensures imagePreview == old(imagePreview) && selectedFile == old(selectedFile)
    {
      effects := effects + [DeleteAccountCall];
      if deleteFailure.Some? {
        error := MessageOr(deleteFailure.value, DeleteFallback);
        return;
      }
      effects := effects + [SignOutCall, Navigate("/")];
    }
  }
}
