/**
 * The login wizard (components/Login.tsx): a three-screen state machine
 * (`select`, `auth`, `form`) with a fixed-credential administrator check,
 * a federated-identity shortcut, a scroll-unlocked terms checkbox, GPS and
 * camera status, and a submit gate that hands a verified-user record to
 * the dashboard after a settle delay.
 *
 * Browser capabilities are inputs: the decoded identity token is an
 * `Option<Claims>`, geolocation and camera results are event methods, and
 * every timer expiry is an event method of its own.
 */
module Login {
  import opened Common
  import Text

  datatype Mode = Select | Auth | Form

  /** The only screen changes the wizard ever makes. */
  predicate ModeStep(from: Mode, to: Mode) {
    || (from == Select && to == Auth)   // "Administrator Login" button
    || (from == Auth && to == Select)   // "Kembali"
    || (from == Auth && to == Form)     // administrator credentials accepted (or a late identity token)
    || (from == Select && to == Form)   // identity token accepted
    || (from == Form && to == Select)   // "Batal"
  }

  datatype AuthData = AuthData(username: string, password: string)
  datatype FormData = FormData(nama: string, telepon: string, email: string)

  /** Decoded claims of the identity token; an absent or falsy claim is `None`. */
  datatype Claims = Claims(name: Option<string>, email: Option<string>)

  /** `'denied'` belongs to the status type but no handler ever sets it. */
  datatype GpsStatus = Idle | Searching | Locked | Error | Denied

  /** The `gps` record; coordinates are `null` until the first fix. */
  datatype Gps = Gps(lat: Option<real>, lon: Option<real>, acc: Option<int>, status: GpsStatus, msg: string)

  /** A camera stream held in `streamRef`; `live` is false once its tracks are stopped. */
  datatype MediaStream = MediaStream(id: nat, live: bool)

  /** The record passed to `onVerified`. */
  datatype VerifiedUser = VerifiedUser(name: string, photo: string, telepon: string, email: string, jabatan: string)

  /** A scheduled `onVerified(user, role)` call, waiting for its settle timer. */
  datatype Handoff = Handoff(user: VerifiedUser, role: Role)

  const AdminId := "admin"
  const AdminPassphrase := "kalimantan selatan"
  const AvatarPrefix := "https://ui-avatars.com/api/?name="
  const MsgSearching := "🛰️ MENGHUBUNGI SATELIT..."
  const MsgLocked := "📍 LOKASI TERKUNCI"
  const MsgWeak := "SINYAL GPS LEMAH"
  const AlertCamera := "Izin kamera diperlukan."
  const AlertSteps := "Pastikan semua langkah (Terms, Kamera) sudah hijau."
  /** Distance in pixels from the bottom of the terms box that still counts as "scrolled to the end". */
  const ScrollSlack := 30

  // ---------------------------------------------------------------- credentials

  /** The administrator check: user name compared trimmed and lower-cased, passphrase trimmed only. */
  function CredentialsMatch(username: string, password: string): (ok: bool)
  {
    Text.ToLower(Text.Trim(username)) == AdminId && Text.Trim(password) == AdminPassphrase
  }

  /**
   * Accepted exactly when the trimmed user name spells "admin" in any mix of
   * cases and the trimmed passphrase is "kalimantan selatan" character for character.
   */
  lemma CredentialsMatchIff(username: string, password: string)
    ensures CredentialsMatch(username, password) <==>
      Text.CaseVariant(Text.Trim(username), AdminId) && Text.Trim(password) == AdminPassphrase
  {
    Text.LowerEqualsIff(Text.Trim(username), AdminId);
  }

  /** Any whitespace around either field and any capitalisation of the user name are accepted. */
  lemma AcceptsPaddedCredentials(a: string, user: string, b: string, c: string, d: string)
    requires Text.AllWhitespace(a) && Text.AllWhitespace(b) && Text.AllWhitespace(c) && Text.AllWhitespace(d)
    requires Text.CaseVariant(user, AdminId)
    ensures CredentialsMatch(a + user + b, c + AdminPassphrase + d)
  {
    assert user[0] == 'a' || user[0] == 'A';
    assert user[4] == 'n' || user[4] == 'N';
    Text.TrimPadded(a, user, b);
    Text.TrimPadded(c, AdminPassphrase, d);
    CredentialsMatchIff(a + user + b, c + AdminPassphrase + d);
  }

  /** The passphrase is case-sensitive: its capitalised spellings are refused whatever the user name. */
  lemma PassphraseCaseSensitive(username: string, password: string)
    requires password == "Kalimantan Selatan" || password == "KALIMANTAN SELATAN"
    ensures !CredentialsMatch(username, password)
  {
    Text.TrimPadded([], password, []);
    assert [] + password + [] == password;
  }

  /** The user name is not: " Admin " with the lower-case passphrase is accepted. */
  lemma AcceptsSpacedCapitalisedAdmin()
    ensures CredentialsMatch(" Admin ", AdminPassphrase)
  {
    assert Text.CaseVariant("Admin", AdminId);
    AcceptsPaddedCredentials(" ", "Admin", " ", [], []);
    assert " " + "Admin" + " " == " Admin ";
    assert [] + AdminPassphrase + [] == AdminPassphrase;
  }

  // ---------------------------------------------------------------- terms

  /** The scroll probe: the bottom of the terms box is within 30 px of the end of its content. */
  predicate ReachedBottom(scrollTop: int, scrollHeight: int, clientHeight: int) {
    scrollTop + clientHeight >= scrollHeight - ScrollSlack
  }

  // ---------------------------------------------------------------- GPS record updates

  /** Coordinates are all present or all absent, and a locked fix has coordinates. */
  predicate GpsWellFormed(g: Gps) {
    && g.lat.Some? == g.lon.Some? && g.lon.Some? == g.acc.Some?
    && (g.status == Locked ==> g.lat.Some?)
  }

  const InitialGps := Gps(None, None, None, Idle, "")

  /** The update made when a position is requested: status and message only. */
  function GpsSearching(prev: Gps): (g: Gps)
    ensures g.status == Searching && g.msg == MsgSearching
    ensures g.lat == prev.lat && g.lon == prev.lon && g.acc == prev.acc
    ensures GpsWellFormed(prev) ==> GpsWellFormed(g)
  {
    prev.(status := Searching, msg := MsgSearching)
  }

  /** The record written by a successful position callback (accuracy already rounded). */
  function GpsFix(lat: real, lon: real, acc: int): (g: Gps)
    ensures GpsWellFormed(g) && g.status == Locked && g.msg == MsgLocked
    ensures g.lat == Some(lat) && g.lon == Some(lon) && g.acc == Some(acc)
  {
    Gps(Some(lat), Some(lon), Some(acc), Locked, MsgLocked)
  }

  /** The update made by a failed position callback: the previous coordinates are kept. */
  function GpsFailure(prev: Gps): (g: Gps)
    ensures g.status == Error && g.msg == MsgWeak
    ensures g.lat == prev.lat && g.lon == prev.lon && g.acc == prev.acc
    ensures GpsWellFormed(prev) ==> GpsWellFormed(g)
  {
    prev.(status := Error, msg := MsgWeak)
  }

  // ---------------------------------------------------------------- camera

  /** `getTracks().forEach(t => t.stop())` on the held stream, if any. */
  function StopTracks(s: Option<MediaStream>): (r: Option<MediaStream>)
    ensures r.Some? == s.Some?
    ensures r.Some? ==> r.value.id == s.value.id && !r.value.live
  {
    match s
    case None => None
    case Some(m) => Some(m.(live := false))
  }

  // ---------------------------------------------------------------- verified record

  function DefaultName(role: Role): string {
    if role == Admin then "Admin Montana" else "User Terverifikasi"
  }

  /** The record handed to `onVerified` for the given form and role. */
  function VerifiedRecord(form: FormData, role: Role): (u: VerifiedUser)
    ensures form.nama != "" ==> u.name == form.nama
    ensures form.nama == "" ==> u.name == DefaultName(role)
    ensures u.jabatan == "Internal Administrator" <==> role == Admin
    ensures u.jabatan == "Portal Member" <==> role == Guest
    ensures u.photo == AvatarPrefix + (if form.nama != "" then form.nama else "User")
    ensures u.telepon == form.telepon && u.email == form.email
  {
    VerifiedUser(
      if form.nama != "" then form.nama else DefaultName(role),
      AvatarPrefix + (if form.nama != "" then form.nama else "User"),
      form.telepon,
      form.email,
      if role == Admin then "Internal Administrator" else "Portal Member")
  }

  /** The handed-over name is never empty, and the avatar URL always names someone. */
  lemma VerifiedRecordNamed(form: FormData, role: Role)
    ensures VerifiedRecord(form, role).name != ""
    ensures |VerifiedRecord(form, role).photo| > |AvatarPrefix|
    ensures VerifiedRecord(form, role).photo[..|AvatarPrefix|] == AvatarPrefix
  {
    var u := VerifiedRecord(form, role);
    if form.nama == "" {
      assert u.name == DefaultName(role);
      assert u.name[0] == 'A' || u.name[0] == 'U';
    }
  }

  /**
   * The profile form's name and phone inputs are `required`, so the browser
   * only submits it with a name; then the name is the one typed and the role
   * affects only the job title.
   */
  lemma RequiredNameWins(form: FormData, role: Role)
    requires form.nama != "" && form.telepon != ""
    ensures VerifiedRecord(form, role).name == form.nama
    ensures VerifiedRecord(form, Admin).name == VerifiedRecord(form, Guest).name
    ensures VerifiedRecord(form, Admin).photo == VerifiedRecord(form, Guest).photo
    ensures VerifiedRecord(form, Admin).jabatan != VerifiedRecord(form, Guest).jabatan
  {
  }

  // ---------------------------------------------------------------- the component

  class LoginWizard {
    var mode: Mode
    var selectedRole: Option<Role>
    var authData: AuthData
    var authError: bool
    var isSyncing: bool
    var formData: FormData
    var agreedToTerms: bool
    var scrolledToBottom: bool
    var gps: Gps
    var faceChecked: bool
    var loginSuccess: bool
    /** `streamRef.current` */
    var stream: Option<MediaStream>
    /** `onVerified` calls scheduled by accepted submits, oldest first (all share the same 1500 ms delay). */
    var pendingHandoffs: seq<Handoff>

    /**
     * The form screen is only reachable with a role; the terms box can only be
     * ticked after it was unlocked; GPS coordinates are all-or-nothing; the
     * camera is only marked ready with a stream; a handoff is only scheduled
     * by an accepted submit.
     */
    ghost predicate Valid()
      reads this
    {
      && (mode == Form ==> selectedRole.Some?)
      && (agreedToTerms ==> scrolledToBottom)
      && GpsWellFormed(gps)
      && (faceChecked ==> stream.Some?)
      && (pendingHandoffs != [] ==> loginSuccess)
    }

    constructor ()
      ensures Valid()
      ensures mode == Select && selectedRole == None
      ensures authData == AuthData("", "") && !authError && !isSyncing
      ensures formData == FormData("", "", "") && !agreedToTerms && !scrolledToBottom
      ensures gps == InitialGps && !faceChecked && !loginSuccess
      ensures stream == None && pendingHandoffs == []
    {
      mode := Select;
      selectedRole := None;
      authData := AuthData("", "");
      authError := false;
      isSyncing := false;
      formData := FormData("", "", "");
      agreedToTerms := false;
      scrolledToBottom := false;
      gps := InitialGps;
      faceChecked := false;
      loginSuccess := false;
      stream := None;
      pendingHandoffs := [];
    }

    // ---- screen changes

    /** "Administrator Login" on the selection screen. */
    method ChooseAdministrator()
      requires Valid() && mode == Select
      modifies this`mode
      ensures Valid() && mode == Auth && ModeStep(old(mode), mode)
    {
      mode := Auth;
    }

    /** "Kembali" on the credential screen: only the screen changes. */
    method Back()
      requires Valid() && mode == Auth
      modifies this`mode
      ensures Valid() && mode == Select && ModeStep(old(mode), mode)
    {
      mode := Select;
    }

    /** "Batal" on the profile form: only the screen changes; the draft, the terms state and the camera are kept. */
    method Cancel()
      requires Valid() && mode == Form
      modifies this`mode
      ensures Valid() && mode == Select && ModeStep(old(mode), mode)
    {
      mode := Select;
    }

    // ---- text inputs

    method SetUsername(v: string)
      requires Valid() && mode == Auth
      modifies this`authData
      ensures Valid() && authData == old(authData).(username := v)
    {
      authData := authData.(username := v);
    }

    method SetPassword(v: string)
      requires Valid() && mode == Auth
      modifies this`authData
      ensures Valid() && authData == old(authData).(password := v)
    {
      authData := authData.(password := v);
    }

    method SetNama(v: string)
      requires Valid() && mode == Form
      modifies this`formData
      ensures Valid() && formData == old(formData).(nama := v)
    {
      formData := formData.(nama := v);
    }

    method SetTelepon(v: string)
      requires Valid() && mode == Form
      modifies this`formData
      ensures Valid() && formData == old(formData).(telepon := v)
    {
      formData := formData.(telepon := v);
    }

    // ---- identity token

    /**
     * The identity widget's callback with the decoded token payload. A payload
     * replaces the form draft, makes the user a guest and opens the form,
     * whatever screen is showing; a parse failure changes nothing.
     */
    method HandleGoogleResponse(payload: Option<Claims>)
      requires Valid()
      modifies this`formData, this`selectedRole, this`mode
      ensures Valid()
      ensures payload.Some? ==>
        && formData == FormData(payload.value.name.GetOr(""), "", payload.value.email.GetOr(""))
        && selectedRole == Some(Guest) && mode == Form
        && (mode == old(mode) || ModeStep(old(mode), mode))
      ensures payload.None? ==>
        formData == old(formData) && selectedRole == old(selectedRole) && mode == old(mode)
    {
      if payload.Some? {
        var claims := payload.value;
        formData := FormData(claims.name.GetOr(""), "", claims.email.GetOr(""));
        selectedRole := Some(Guest);
        mode := Form;
      }
    }

    // ---- credentials

    /**
     * Submitting the credential form. Success makes the user an administrator
     * and opens the form; failure raises the error flag and schedules its
     * clearing. Either way the syncing flag ends cleared.
     */
    method HandleAuthSubmit() returns (accepted: bool)
      requires Valid() && mode == Auth
      modifies this`selectedRole, this`mode, this`authError, this`isSyncing
      ensures accepted == CredentialsMatch(authData.username, authData.password)
      ensures Valid() && !isSyncing
      ensures accepted ==>
        selectedRole == Some(Admin) && mode == Form && authError == old(authError) && ModeStep(old(mode), mode)
      ensures !accepted ==>
        selectedRole == old(selectedRole) && mode == Auth && authError
    {
      isSyncing := true;
      accepted := CredentialsMatch(authData.username, authData.password);
      if accepted {
        selectedRole := Some(Admin);
        mode := Form;
      } else {
        authError := true;
      }
      isSyncing := false;
    }

    /** The 2000 ms timer scheduled by a failed attempt. */
    method AuthErrorTimerFired()
      requires Valid()
      modifies this`authError
      ensures Valid() && !authError
    {
      authError := false;
    }

    // ---- terms

    /** A scroll event of the terms box: unlocks the checkbox near the bottom, never locks it again. */
    method HandleTermsScroll(scrollTop: int, scrollHeight: int, clientHeight: int)
      requires Valid() && mode == Form
      modifies this`scrolledToBottom
      ensures Valid()
      ensures scrolledToBottom == (old(scrolledToBottom) || ReachedBottom(scrollTop, scrollHeight, clientHeight))
    {
      if ReachedBottom(scrollTop, scrollHeight, clientHeight) {
        scrolledToBottom := true;
      }
    }

    /** The terms checkbox; while it is still disabled a click has no effect. */
    method SetAgreedToTerms(checked: bool)
      requires Valid() && mode == Form
      modifies this`agreedToTerms
      ensures Valid()
      ensures agreedToTerms == if scrolledToBottom then checked else old(agreedToTerms)
    {
      if scrolledToBottom {
        agreedToTerms := checked;
      }
    }

    // ---- GPS

    /** "Kunci Lokasi": asks for a position; the old coordinates stay until a result arrives. */
    method RequestGps()
      requires Valid() && mode == Form
      modifies this`gps
      ensures Valid() && gps == GpsSearching(old(gps))
    {
      gps := GpsSearching(gps);
    }

    /** The position callback. */
    method GpsSucceeded(lat: real, lon: real, acc: int)
      requires Valid()
      modifies this`gps
      ensures Valid() && gps == GpsFix(lat, lon, acc)
    {
      gps := GpsFix(lat, lon, acc);
    }

    /** The error callback: status and message only. */
    method GpsFailed()
      requires Valid()
      modifies this`gps
      ensures Valid() && gps == GpsFailure(old(gps))
    {
      gps := GpsFailure(gps);
    }

    // ---- camera

    /**
     * The scanner toggle. Switching it on asks for the camera (answered by
     * `CameraGranted` or `CameraDenied`) and changes nothing yet; switching it
     * off clears the flag and stops the held stream.
     */
    method HandleFaceChange(checked: bool) returns (requestCamera: bool)
      requires Valid() && mode == Form
      modifies this`faceChecked, this`stream
      ensures Valid() && requestCamera == checked
      ensures checked ==> faceChecked == old(faceChecked) && stream == old(stream)
      ensures !checked ==> !faceChecked && stream == StopTracks(old(stream))
    {
      requestCamera := checked;
      if !checked {
        faceChecked := false;
        stream := StopTracks(stream);
      }
    }

    /** Camera permission granted: the new stream is held and the check is marked done. */
    method CameraGranted(id: nat)
      requires Valid()
      modifies this`faceChecked, this`stream
      ensures Valid() && faceChecked && stream == Some(MediaStream(id, true))
    {
      stream := Some(MediaStream(id, true));
      faceChecked := true;
    }

    /** Camera permission refused: an alert, and the check stays as it was. */
    method CameraDenied() returns (alert: string)
      requires Valid()
      ensures alert == AlertCamera
    {
      alert := AlertCamera;
    }

    // ---- submit

    /** Whether the submit button is enabled (location is deliberately not required). */
    function SubmitEnabled(): (enabled: bool)
      reads this
      ensures enabled ==> faceChecked
    {
      faceChecked && !isSyncing
    }

    /**
     * Submitting the profile form, which the browser only does while the
     * submit button is enabled. Without ticked terms it only alerts; the GPS
     * status is not consulted. Otherwise it marks the wizard as syncing and
     * successful and schedules the handoff of the verified record built from
     * the current draft and role; the button is then disabled, so a second
     * handoff cannot be scheduled.
     */
    method HandleSubmit() returns (accepted: bool, alert: Option<string>)
      requires Valid() && mode == Form && SubmitEnabled()
      modifies this`isSyncing, this`loginSuccess, this`pendingHandoffs
      ensures Valid()
      ensures accepted ==> !SubmitEnabled()
      ensures accepted == (agreedToTerms && faceChecked)
      ensures !accepted ==>
        && alert == Some(AlertSteps)
        && isSyncing == old(isSyncing) && loginSuccess == old(loginSuccess)
        && pendingHandoffs == old(pendingHandoffs)
      ensures accepted ==>
        && alert == None && isSyncing && loginSuccess
        && pendingHandoffs == old(pendingHandoffs) + [Handoff(VerifiedRecord(formData, selectedRole.value), selectedRole.value)]
    {
      if !agreedToTerms || !faceChecked {
        return false, Some(AlertSteps);
      }
      isSyncing := true;
      loginSuccess := true;
      pendingHandoffs := pendingHandoffs + [Handoff(VerifiedRecord(formData, selectedRole.value), selectedRole.value)];
      accepted, alert := true, None;
    }

    /** The 1500 ms settle timer of the oldest accepted submit: stops the camera and calls `onVerified`. */
    method SubmitTimerFired() returns (user: VerifiedUser, role: Role)
      requires Valid() && pendingHandoffs != []
      modifies this`stream, this`pendingHandoffs
      ensures Valid()
      ensures Handoff(user, role) == old(pendingHandoffs[0])
      ensures pendingHandoffs == old(pendingHandoffs[1..])
      ensures stream == StopTracks(old(stream))
    {
      user, role := pendingHandoffs[0].user, pendingHandoffs[0].role;
      pendingHandoffs := pendingHandoffs[1..];
      stream := StopTracks(stream);
    }
  }
}
