/**
 * The dashboard shell (App.tsx): the session and role state kept by the
 * login, identity-provider and logout handlers, and the pure helpers the
 * shell applies to fetched data: the WMO weather-code classifier, the
 * 8-point wind direction, today's seedling summary and the admin-only gate.
 *
 * The fetches themselves are inputs: a weather fetch arrives as a
 * `WeatherFetch` value, spreadsheet rows as already-normalised `BibitRow`s,
 * the clock as a `now` string, and calendar days as a `dayOf` function with
 * `today` compared by equality.
 */
module App {
  import opened Common
  import Login
  import BottomNav

  // ================================================================ weather

  /** The conditions the weather mapping assigns. */
  datatype WeatherCondition = Clear | Cloudy | Rain | Storm

  const ClearCodes: set<int> := {0, 1}
  const CloudyCodes: set<int> := {2, 3, 45, 48}
  const RainCodes: set<int> := {51, 53, 55, 56, 57, 61, 63, 65, 66, 67, 80, 81, 82}
  const StormCodes: set<int> := {95, 96, 99}

  /**
   * The WMO weather-code mapping. Every code gets exactly one condition:
   * the listed clear, rain and storm codes their own, everything else
   * (the listed cloudy codes, snow, unknown codes) cloudy.
   */
  function ClassifyWeatherCode(code: int): (c: WeatherCondition)
    ensures c == Clear <==> code in ClearCodes
    ensures c == Rain <==> code in RainCodes
    ensures c == Storm <==> code in StormCodes
    ensures c == Cloudy <==> code in CloudyCodes || code !in ClearCodes + RainCodes + StormCodes
  {
    if code in [0, 1] then Clear
    else if code in [2, 3, 45, 48] then Cloudy
    else if code in [51, 53, 55, 56, 57, 61, 63, 65, 66, 67, 80, 81, 82] then Rain
    else if code in [95, 96, 99] then Storm
    else Cloudy
  }

  const Directions: seq<string> := ["N", "NE", "E", "SE", "S", "SW", "W", "NW"]

  /** `Math.round(deg / 45)` for a whole number of degrees: the nearest multiple of 45, halves rounded up. */
  function RoundDiv45(deg: int): (q: int)
    ensures 90 * q <= 2 * deg + 45 < 90 * q + 90
  {
    (2 * deg + 45) / 90
  }

  /** JavaScript's `%`: the remainder takes the sign of the dividend. */
  function JsRem(a: int, b: int): (r: int)
    requires b > 0
    ensures a >= 0 ==> 0 <= r < b
    ensures a < 0 ==> -b < r <= 0
  {
    if a >= 0 then a % b else -((-a) % b)
  }

  /** `Math.round(deg / 45) % 8`, the index into `Directions`. */
  function WindIndex(deg: int): (i: int)
    ensures deg >= 0 ==> 0 <= i < 8
    ensures -8 < i < 8
  {
    JsRem(RoundDiv45(deg), 8)
  }

  /** `DIRECTIONS[...]`; a negative index reads `undefined`, which is `None` here. */
  function WindDirection(deg: int): (d: Option<string>)
    ensures deg >= 0 ==> d == Some(Directions[WindIndex(deg)])
    ensures d.Some? <==> WindIndex(deg) >= 0
  {
    var i := WindIndex(deg);
    if 0 <= i then Some(Directions[i]) else None
  }

  /**
   * For a bearing in [0, 360) the direction is the compass point within
   * 22.5 degrees of it: point k covers [45k - 22.5, 45k + 22.5), and north
   * also covers the last half sector [337.5, 360).
   */
  lemma WindSector(deg: int)
    requires 0 <= deg < 360
    ensures var k := WindIndex(deg);
      && WindDirection(deg) == Some(Directions[k])
      && (2 * deg < 675 ==> 90 * k - 45 <= 2 * deg < 90 * k + 45)
      && (2 * deg >= 675 ==> k == 0)
  {
    var q := RoundDiv45(deg);
    assert 0 <= q <= 8;
    if 2 * deg < 675 {
      assert q < 8;
    } else {
      assert q == 8;
    }
  }

  /** A full turn changes nothing: 360 degrees reads "N" like 0 degrees, and so on all around. */
  lemma {:induction false} WindFullTurn(deg: int)
    requires deg >= 0
    ensures WindDirection(deg + 360) == WindDirection(deg)
    ensures WindDirection(360) == Some("N")
  {
    var q := RoundDiv45(deg);
    assert RoundDiv45(deg + 360) == q + 8;
    assert (q + 8) % 8 == q % 8;
    assert RoundDiv45(360) == 8;
  }

  /** A bearing just west of north rounds to index -1 and reads `undefined`. */
  lemma NegativeBearingUndefined()
    ensures WindDirection(-23) == None
    ensures WindDirection(-22) == Some("N")
  {
    assert RoundDiv45(-23) == -1;
    assert RoundDiv45(-22) == 0;
  }

  /** `Math.round` of a number: the nearest integer, halves rounded up. */
  function JsRound(x: real): (n: int)
    ensures n as real <= x + 0.5 < n as real + 1.0
  {
    (x + 0.5).Floor
  }

  /** The `current` block of a weather response, already decoded. */
  datatype CurrentWeather = CurrentWeather(
    temperature: real, humidity: int, precipitation: real,
    weatherCode: int, windSpeed: real, windDirection: int)

  /** A weather fetch: failed (network, HTTP status, timeout or JSON error), or a body with or without `current`. */
  datatype WeatherFetch = FetchFailed | Fetched(current: Option<CurrentWeather>)

  datatype WeatherDetails = WeatherDetails(
    temp: int, windspeed: int, humidity: int, rain: real, windDirection: Option<string>)

  const InitialDetails := WeatherDetails(0, 0, 0, 0.0, Some("N"))
  /** The estimate shown when the fetch fails. */
  const FallbackDetails := WeatherDetails(28, 12, 75, 0.0, Some("NW"))

  /**
   * What `fetchWeather` writes: the fallback on failure, nothing for a body
   * without `current`, otherwise the rounded readings, the wind direction and
   * the classified code.
   */
  function WeatherUpdate(f: WeatherFetch): (u: Option<(WeatherCondition, WeatherDetails)>)
    ensures f.FetchFailed? ==> u == Some((Cloudy, FallbackDetails))
    ensures f.Fetched? && f.current.None? ==> u == None
    ensures f.Fetched? && f.current.Some? ==>
      var cur := f.current.value;
      && u.Some?
      && u.value.0 == ClassifyWeatherCode(cur.weatherCode)
      && u.value.1.temp == JsRound(cur.temperature) && u.value.1.windspeed == JsRound(cur.windSpeed)
      && u.value.1.humidity == cur.humidity && u.value.1.rain == cur.precipitation
      && u.value.1.windDirection == WindDirection(cur.windDirection)
  {
    match f
    case FetchFailed => Some((Cloudy, FallbackDetails))
    case Fetched(None) => None
    case Fetched(Some(cur)) =>
      Some((ClassifyWeatherCode(cur.weatherCode),
            WeatherDetails(JsRound(cur.temperature), JsRound(cur.windSpeed), cur.humidity,
                           cur.precipitation, WindDirection(cur.windDirection))))
  }

  // ================================================================ today's seedling summary

  /** One normalised spreadsheet row. */
  datatype BibitRow = BibitRow(tanggal: string, bibit: string, masuk: int, keluar: int, mati: int, tujuan: string)

  /** `todaySummary`: the last row as it is, or today's totals (`isAggregated: true`). */
  datatype Summary =
    | LastRow(row: BibitRow)
    | Aggregated(bibit: string, masuk: int, keluar: int, mati: int, tanggal: string)

  datatype Column = Masuk | Keluar | Mati

  function Get(r: BibitRow, c: Column): int {
    match c
    case Masuk => r.masuk
    case Keluar => r.keluar
    case Mati => r.mati
  }

  predicate IsToday(r: BibitRow, dayOf: string -> string, today: string) {
    dayOf(r.tanggal) == today
  }

  predicate HasToday(rows: seq<BibitRow>, dayOf: string -> string, today: string) {
    exists i :: 0 <= i < |rows| && IsToday(rows[i], dayOf, today)
  }

  /** `allBibitData.filter(...)`: today's rows, in their original order. */
  function TodayEntries(rows: seq<BibitRow>, dayOf: string -> string, today: string): (r: seq<BibitRow>)
    ensures |r| <= |rows|
    ensures forall i :: 0 <= i < |r| ==> IsToday(r[i], dayOf, today)
    ensures r == [] <==> !HasToday(rows, dayOf, today)
    decreases |rows|
  {
    if rows == [] then []
    else
      var init := rows[..|rows| - 1];
      var last := rows[|rows| - 1];
      var r := TodayEntries(init, dayOf, today);
      assert HasToday(rows, dayOf, today) <==> HasToday(init, dayOf, today) || IsToday(last, dayOf, today) by {
        if HasToday(init, dayOf, today) {
          var i :| 0 <= i < |init| && IsToday(init[i], dayOf, today);
          assert rows[i] == init[i];
        }
        if HasToday(rows, dayOf, today) && !IsToday(last, dayOf, today) {
          var i :| 0 <= i < |rows| && IsToday(rows[i], dayOf, today);
          assert init[i] == rows[i];
        }
      }
      if IsToday(last, dayOf, today) then r + [last] else r
  }

  /** `reduce((acc, curr) => acc + curr[c], 0)`: a left-to-right sum of one column. */
  function Total(rows: seq<BibitRow>, c: Column): (t: int)
    ensures (forall i :: 0 <= i < |rows| ==> Get(rows[i], c) >= 0) ==> t >= 0
    decreases |rows|
  {
    if rows == [] then 0 else Total(rows[..|rows| - 1], c) + Get(rows[|rows| - 1], c)
  }

  /** Reference definition: the column summed over the rows of today, skipping the others. */
  function SumToday(rows: seq<BibitRow>, c: Column, dayOf: string -> string, today: string): int
    decreases |rows|
  {
    if rows == [] then 0
    else (if IsToday(rows[0], dayOf, today) then Get(rows[0], c) else 0) + SumToday(rows[1..], c, dayOf, today)
  }

  lemma {:induction false} SumTodaySnoc(rows: seq<BibitRow>, x: BibitRow, c: Column, dayOf: string -> string, today: string)
    ensures SumToday(rows + [x], c, dayOf, today) ==
      SumToday(rows, c, dayOf, today) + (if IsToday(x, dayOf, today) then Get(x, c) else 0)
    decreases |rows|
  {
    if rows == [] {
      assert rows + [x] == [x];
      assert [x][1..] == [];
    } else {
      assert (rows + [x])[1..] == rows[1..] + [x];
      SumTodaySnoc(rows[1..], x, c, dayOf, today);
    }
  }

  /** Summing today's filtered rows equals summing the column over today's rows in place. */
  lemma {:induction false} TotalOfTodayEntries(rows: seq<BibitRow>, c: Column, dayOf: string -> string, today: string)
    ensures Total(TodayEntries(rows, dayOf, today), c) == SumToday(rows, c, dayOf, today)
    decreases |rows|
  {
    if rows != [] {
      var init := rows[..|rows| - 1];
      var last := rows[|rows| - 1];
      TotalOfTodayEntries(init, c, dayOf, today);
      SumTodaySnoc(init, last, c, dayOf, today);
      assert init + [last] == rows;
      var r := TodayEntries(init, dayOf, today);
      if IsToday(last, dayOf, today) {
        assert (r + [last])[..|r + [last]| - 1] == r;
      }
    }
  }

  /** The index of the last row of today. */
  function LastTodayIndex(rows: seq<BibitRow>, dayOf: string -> string, today: string): (k: nat)
    requires HasToday(rows, dayOf, today)
    ensures k < |rows| && IsToday(rows[k], dayOf, today)
    ensures forall j :: k < j < |rows| ==> !IsToday(rows[j], dayOf, today)
    decreases |rows|
  {
    var init := rows[..|rows| - 1];
    if IsToday(rows[|rows| - 1], dayOf, today) then |rows| - 1
    else
      assert HasToday(init, dayOf, today) by {
        var i :| 0 <= i < |rows| && IsToday(rows[i], dayOf, today);
        assert init[i] == rows[i];
      }
      LastTodayIndex(init, dayOf, today)
  }

  /** The last of today's filtered rows is the last row of today in the input. */
  lemma {:induction false} LastOfTodayEntries(rows: seq<BibitRow>, dayOf: string -> string, today: string)
    requires HasToday(rows, dayOf, today)
    ensures var r := TodayEntries(rows, dayOf, today);
      r != [] && r[|r| - 1] == rows[LastTodayIndex(rows, dayOf, today)]
    decreases |rows|
  {
    var init := rows[..|rows| - 1];
    if !IsToday(rows[|rows| - 1], dayOf, today) {
      assert HasToday(init, dayOf, today) by {
        var i :| 0 <= i < |rows| && IsToday(rows[i], dayOf, today);
        assert init[i] == rows[i];
      }
      LastOfTodayEntries(init, dayOf, today);
    }
  }

  /**
   * `todaySummary`: nothing without rows; the last row unchanged when no row
   * is from today; otherwise today's sums of masuk, keluar and mati, with the
   * seedling name and date of today's last row.
   */
  function TodaySummary(rows: seq<BibitRow>, dayOf: string -> string, today: string): (s: Option<Summary>)
    ensures rows == [] <==> s.None?
    ensures rows != [] && !HasToday(rows, dayOf, today) ==> s == Some(LastRow(rows[|rows| - 1]))
    ensures HasToday(rows, dayOf, today) ==>
      var k := LastTodayIndex(rows, dayOf, today);
      s == Some(Aggregated(rows[k].bibit,
                           SumToday(rows, Masuk, dayOf, today),
                           SumToday(rows, Keluar, dayOf, today),
                           SumToday(rows, Mati, dayOf, today),
                           rows[k].tanggal))
  {
    if rows == [] then None
    else
      var entries := TodayEntries(rows, dayOf, today);
      if entries == [] then Some(LastRow(rows[|rows| - 1]))
      else
        LastOfTodayEntries(rows, dayOf, today);
        TotalOfTodayEntries(rows, Masuk, dayOf, today);
        TotalOfTodayEntries(rows, Keluar, dayOf, today);
        TotalOfTodayEntries(rows, Mati, dayOf, today);
        var last := entries[|entries| - 1];
        Some(Aggregated(last.bibit, Total(entries, Masuk), Total(entries, Keluar), Total(entries, Mati), last.tanggal))
  }

  // ================================================================ admin-only content

  /** What `AdminFeatureLock` renders: the children as they are, or a locked overlay over blurred children. */
  datatype Gate = ShowChildren | Overlay(title: string)

  const DefaultLockTitle := "Akses Terbatas"

  function AdminFeatureLock(role: Option<Role>, title: Option<string>): (g: Gate)
    ensures g == ShowChildren <==> role == Some(Admin)
    ensures g.Overlay? ==> g.title == title.GetOr(DefaultLockTitle)
  {
    if role == Some(Admin) then ShowChildren else Overlay(title.GetOr(DefaultLockTitle))
  }

  /** The stock bubble, rendered with today's summary, exists only for an administrator. */
  function StockBubble(role: Option<Role>, summary: Option<Summary>): (b: Option<Option<Summary>>)
    ensures b.Some? <==> role == Some(Admin)
    ensures b.Some? ==> b.value == summary
  {
    if role == Some(Admin) then Some(summary) else None
  }

  /** The daily notification toast exists only for an administrator and shows the latest row while not dismissed. */
  function NotificationToast(role: Option<Role>, showDailyToast: bool, latestUpdate: Option<BibitRow>): (t: Option<Option<BibitRow>>)
    ensures t.Some? <==> role == Some(Admin)
    ensures t.Some? ==> t.value == (if showDailyToast then latestUpdate else None)
  {
    if role == Some(Admin) then Some(if showDailyToast then latestUpdate else None) else None
  }

  // ================================================================ session

  datatype UserProfile = UserProfile(
    name: string, photo: string, jabatan: string, telepon: string, email: string,
    activeSeconds: int, lastSeen: string)

  const LogoUrl := "https://i.ibb.co.com/29Gzw6k/montana-AI.jpg"
  const HomeTab := "home"

  /** The signed-out profile; `now` is the clock's ISO timestamp. */
  function GuestProfile(now: string): UserProfile {
    UserProfile("Tamu Montana", LogoUrl, "Public Access", "", "", 0, now)
  }

  class Session {
    var isAuthenticated: bool
    var isOAuthAuthenticated: bool
    var userRole: Option<Role>
    var showLoginModal: bool
    var activeTab: string
    var user: UserProfile
    var weatherCondition: WeatherCondition
    var weatherDetails: WeatherDetails
    var allBibitData: seq<BibitRow>
    var latestUpdate: Option<BibitRow>
    var showDailyToast: bool

    /** Signed in exactly when a role is held; identity-provider sign-in implies signed in. */
    ghost predicate Valid()
      reads this
    {
      BottomNav.Consistent(isAuthenticated, userRole) && (isOAuthAuthenticated ==> isAuthenticated)
    }

    constructor (now: string)
      ensures Valid()
      ensures !isAuthenticated && !isOAuthAuthenticated && userRole == None
      ensures !showLoginModal && activeTab == HomeTab && user == GuestProfile(now)
      ensures weatherCondition == Clear && weatherDetails == InitialDetails
      ensures allBibitData == [] && latestUpdate == None && !showDailyToast
    {
      isAuthenticated := false;
      isOAuthAuthenticated := false;
      userRole := None;
      showLoginModal := false;
      activeTab := HomeTab;
      user := GuestProfile(now);
      weatherCondition := Clear;
      weatherDetails := InitialDetails;
      allBibitData := [];
      latestUpdate := None;
      showDailyToast := false;
    }

    /**
     * `handleLoginSuccess`, the wizard's `onVerified`: the verified record
     * overwrites the matching profile fields, the role is taken, the user is
     * signed in and the modal closes; an administrator's sign-in also asks for
     * the seedling rows.
     */
    method HandleLoginSuccess(data: Login.VerifiedUser, role: Role) returns (fetchNotifications: bool)
      requires Valid()
      modifies this`user, this`userRole, this`isAuthenticated, this`showLoginModal
      ensures Valid()
      ensures user == old(user).(name := data.name, photo := data.photo, telepon := data.telepon,
                                 email := data.email, jabatan := data.jabatan)
      ensures userRole == Some(role) && isAuthenticated && !showLoginModal
      ensures fetchNotifications <==> role == Admin
    {
      user := user.(name := data.name, photo := data.photo, telepon := data.telepon,
                    email := data.email, jabatan := data.jabatan);
      userRole := Some(role);
      isAuthenticated := true;
      showLoginModal := false;
      fetchNotifications := role == Admin;
    }

    /**
     * `handleOAuthSuccess`: only name, photo and e-mail change; the user is
     * signed in through the identity provider; a role already held is kept,
     * and a user without one becomes a guest.
     */
    method HandleOAuthSuccess(name: string, photo: string, email: string)
      requires Valid()
      modifies this`user, this`isOAuthAuthenticated, this`userRole, this`isAuthenticated
      ensures Valid()
      ensures user == old(user).(name := name, photo := photo, email := email)
      ensures isOAuthAuthenticated && isAuthenticated
      ensures userRole == if old(userRole) == None then Some(Guest) else old(userRole)
    {
      user := user.(name := name, photo := photo, email := email);
      isOAuthAuthenticated := true;
      if userRole == None {
        userRole := Some(Guest);
      }
      isAuthenticated := true;
    }

    /** `handleLogout`: back to the signed-out guest profile on the home tab, with the login modal open. */
    method HandleLogout(now: string)
      requires Valid()
      modifies this`isAuthenticated, this`isOAuthAuthenticated, this`userRole, this`user,
               this`activeTab, this`showLoginModal
      ensures Valid()
      ensures !isAuthenticated && !isOAuthAuthenticated && userRole == None
      ensures user == GuestProfile(now) && activeTab == HomeTab && showLoginModal
    {
      isAuthenticated := false;
      isOAuthAuthenticated := false;
      userRole := None;
      user := GuestProfile(now);
      activeTab := HomeTab;
      showLoginModal := true;
    }

    /** `onRequestLogin`, passed to the navigation bar and the menu grid. */
    method RequestLogin()
      requires Valid()
      modifies this`showLoginModal
      ensures Valid() && showLoginModal
    {
      showLoginModal := true;
    }

    /** The top bar's `onProfileClick`: opens the profile tab whatever the session. */
    method ProfileClick()
      requires Valid()
      modifies this`activeTab
      ensures Valid() && activeTab == BottomNav.ProfileTab
    {
      activeTab := BottomNav.ProfileTab;
    }

    /** The wizard's `onClose` ("Lanjutkan Sebagai Tamu"). */
    method CloseLoginModal()
      requires Valid()
      modifies this`showLoginModal
      ensures Valid() && !showLoginModal
    {
      showLoginModal := false;
    }

    /**
     * A click on a navigation item, which the browser only delivers while the
     * button is enabled: the decision of `BottomNav.HandleNavClick`, applied
     * to the shell. Such a click never raises the administrator alert, and
     * only the authentication trigger can ask for a login.
     */
    method NavClick(item: BottomNav.NavItem) returns (action: BottomNav.NavAction)
      requires Valid() && !BottomNav.Disabled(item, isAuthenticated, userRole)
      modifies this`activeTab, this`showLoginModal
      ensures Valid()
      ensures action == BottomNav.HandleNavClick(item, isAuthenticated, userRole)
      ensures !action.DenyAdmin?
      ensures action.RequestLogin? ==> item.isAuthTrigger && !isAuthenticated
      ensures activeTab == if action.SetTab? then action.tab else old(activeTab)
      ensures showLoginModal == (old(showLoginModal) || action.RequestLogin?)
    {
      BottomNav.DisabledIffRefused(item, isAuthenticated, userRole);
      action := BottomNav.HandleNavClick(item, isAuthenticated, userRole);
      match action {
        case SetTab(tab) => activeTab := tab;
        case RequestLogin => showLoginModal := true;
        case DenyAdmin(_) =>
        case OpenExternal(_) =>
      }
    }

    /** The state writes of `fetchWeather` for one fetch outcome. */
    method ApplyWeather(f: WeatherFetch)
      requires Valid()
      modifies this`weatherCondition, this`weatherDetails
      ensures Valid()
      ensures WeatherUpdate(f).Some? ==>
        weatherCondition == WeatherUpdate(f).value.0 && weatherDetails == WeatherUpdate(f).value.1
      ensures WeatherUpdate(f).None? ==>
        weatherCondition == old(weatherCondition) && weatherDetails == old(weatherDetails)
    {
      var u := WeatherUpdate(f);
      if u.Some? {
        weatherCondition, weatherDetails := u.value.0, u.value.1;
      }
    }

    /** The state writes of `fetchLatestNotif` once the rows are normalised. */
    method ReceiveBibitData(rows: seq<BibitRow>)
      requires Valid()
      modifies this`allBibitData, this`latestUpdate, this`showDailyToast
      ensures Valid() && allBibitData == rows
      ensures rows != [] ==> latestUpdate == Some(rows[|rows| - 1]) && showDailyToast
      ensures rows == [] ==> latestUpdate == old(latestUpdate) && showDailyToast == old(showDailyToast)
    {
      allBibitData := rows;
      if rows != [] {
        latestUpdate := Some(rows[|rows| - 1]);
        showDailyToast := true;
      }
    }

    /** The toast's `onClose`. */
    method CloseDailyToast()
      requires Valid()
      modifies this`showDailyToast
      ensures Valid() && !showDailyToast
    {
      showDailyToast := false;
    }
  }

  /**
   * The shell's invariant and both gates: in a valid session admin-only
   * content is shown unobstructed only to a signed-in user, a navigation
   * button is enabled exactly when its click is permitted, and the
   * administrator alert is only reachable through a disabled button.
   */
  lemma SessionGates(s: Session, title: Option<string>, item: BottomNav.NavItem)
    requires s.Valid()
    ensures AdminFeatureLock(s.userRole, title) == ShowChildren ==> s.isAuthenticated
    ensures !item.isAuthTrigger ==>
      (!BottomNav.Disabled(item, s.isAuthenticated, s.userRole) <==>
       BottomNav.Permitted(BottomNav.HandleNavClick(item, s.isAuthenticated, s.userRole)))
    ensures BottomNav.HandleNavClick(item, s.isAuthenticated, s.userRole).DenyAdmin? ==>
      BottomNav.Disabled(item, s.isAuthenticated, s.userRole)
  {
    BottomNav.DisabledIffRefused(item, s.isAuthenticated, s.userRole);
  }
}
