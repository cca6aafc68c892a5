/** The settings page: visibility and e-mail notification preferences, the browser
    notification permission, and the social links, which are checked against
    per-platform URL patterns before they are saved. */
module SettingsPage {
  import opened Wrappers
  import opened Text
  import opened JsObjects

  // ---------------------------------------------------------------- social links

  const Scheme: string := "https://"
  const WwwPrefix: string := "www."

  /** The host part of each platform's pattern; `None` for a key the pattern table
      does not have. */
  function HostOf(platform: string): (host: Option<string>)
    ensures host.Some? <==> platform in ["linkedin", "github", "twitter"]
    ensures host.Some? ==> |host.value| > 0 && host.value[0] != 'w'
  {
    if platform == "linkedin" then Some("linkedin.com/in/")
    else if platform == "github" then Some("github.com/")
    else if platform == "twitter" then Some("twitter.com/")
    else None
  }

  /** A character of the class `[\w-]`. */
  predicate WordChar(c: char)
  {
    'A' <= c <= 'Z' || 'a' <= c <= 'z' || '0' <= c <= '9' || c == '_' || c == '-'
  }

  /** A match of `[\w-]+`. */
  predicate Run(t: string) { |t| > 0 && forall k :: 0 <= k < |t| ==> WordChar(t[k]) }

  /** A match of `[\w-]+\/?`. */
  predicate Tail(t: string)
  {
    Run(t) || (|t| >= 2 && t[|t| - 1] == '/' && Run(t[..|t| - 1]))
  }

  /** The pattern `^https:\/\/(www\.)?HOST[\w-]+\/?$`, read off the regular expression
      as its two alternatives for the optional group. */
  predicate LinkPattern(url: string, host: string)
  {
    var long, short := Scheme + WwwPrefix + host, Scheme + host;
    (IsPrefix(long, url) && Tail(url[|long|..])) || (IsPrefix(short, url) && Tail(url[|short|..]))
  }

  /** A left-to-right scan: the scheme, "www." when present, the host, then the name
      with one trailing '/' dropped. */
  predicate ScanLink(url: string, host: string)
  {
    IsPrefix(Scheme, url)
    && var rest := url[|Scheme|..];
       var site := if IsPrefix(WwwPrefix, rest) then rest[|WwwPrefix|..] else rest;
       IsPrefix(host, site)
       && var path := site[|host|..];
          Run(if path != [] && path[|path| - 1] == '/' then path[..|path| - 1] else path)
  }

  /** A prefix made of two parts is the first part followed by the second. */
  lemma PrefixConcat(p: string, q: string, s: string)
    ensures IsPrefix(p + q, s) <==> IsPrefix(p, s) && IsPrefix(q, s[|p|..])
    ensures IsPrefix(p + q, s) ==> s[|p + q|..] == s[|p|..][|q|..]
  {
    if IsPrefix(p, s) && IsPrefix(q, s[|p|..]) {
      assert s[..|p + q|] == s[..|p|] + s[|p|..][..|q|];
    }
    if IsPrefix(p + q, s) {
      assert s[..|p|] == (p + q)[..|p|] == p;
      assert s[|p|..][..|q|] == s[|p|..|p + q|] == (p + q)[|p|..] == q;
    }
  }

  /** Dropping one trailing '/' and asking for a run is the same as `[\w-]+\/?`. */
  lemma TailIff(path: string)
    ensures Tail(path) <==> Run(if path != [] && path[|path| - 1] == '/' then path[..|path| - 1] else path)
  {
    if path != [] && path[|path| - 1] == '/' {
      assert !WordChar(path[|path| - 1]);
    }
  }

  /** The scan accepts exactly the URLs the pattern matches. Because no host starts
      with 'w', at most one alternative of `(www\.)?` can lead to a match. */
  lemma ScanLinkIff(url: string, host: string)
    requires |host| > 0 && host[0] != 'w'
    ensures ScanLink(url, host) <==> LinkPattern(url, host)
  {
    PrefixConcat(Scheme, WwwPrefix + host, url);
    PrefixConcat(Scheme + WwwPrefix, host, url);
    PrefixConcat(Scheme, WwwPrefix, url);
    PrefixConcat(Scheme, host, url);
    assert Scheme + WwwPrefix + host == Scheme + (WwwPrefix + host);
    if IsPrefix(Scheme, url) {
      var rest := url[|Scheme|..];
      PrefixConcat(WwwPrefix, host, rest);
      if IsPrefix(WwwPrefix, rest) {
        assert !IsPrefix(host, rest) by { assert rest[0] == 'w'; }
        if IsPrefix(host, rest[|WwwPrefix|..]) {
          TailIff(rest[|WwwPrefix|..][|host|..]);
        }
      } else if IsPrefix(host, rest) {
        TailIff(rest[|host|..]);
      }
    }
  }

  /** `validateSocialLink`: `Some(valid)`, or `None` where looking up the pattern of an
      unknown platform throws. An empty link is valid for every platform. */
  function ValidateSocialLink(url: string, platform: string): (r: Option<bool>)
    ensures url == [] ==> r == Some(true)
    ensures r.None? <==> url != [] && platform !in ["linkedin", "github", "twitter"]
  {
    if url == [] then Some(true)
    else match HostOf(platform) {
      case None => None
      case Some(host) => Some(ScanLink(url, host))
    }
  }

  /** A non-empty link of a known platform is valid exactly when it matches that
      platform's pattern. */
  lemma ValidateSocialLinkMatches(url: string, platform: string)
    requires url != [] && HostOf(platform).Some?
    ensures ValidateSocialLink(url, platform) == Some(LinkPattern(url, HostOf(platform).value))
  {
    ScanLinkIff(url, HostOf(platform).value);
  }

  /** The scheme, the host and a name are accepted, with or without "www." and a
      trailing '/'. */
  lemma WellFormedLinksScan(host: string, name: string)
    requires |host| > 0 && host[0] != 'w' && Run(name)
    ensures ScanLink(Scheme + host + name, host)
    ensures ScanLink(Scheme + WwwPrefix + host + name + "/", host)
  {
    var url := Scheme + host + name;
    PrefixConcat(Scheme, host + name, url);
    assert Scheme + host + name == Scheme + (host + name);
    assert url[|Scheme|..] == host + name;
    assert (host + name)[|host|..] == name;
    var url' := Scheme + WwwPrefix + host + name + "/";
    assert url' == Scheme + (WwwPrefix + (host + (name + "/")));
    PrefixConcat(Scheme, WwwPrefix + (host + (name + "/")), url');
    var rest := url'[|Scheme|..];
    assert rest == WwwPrefix + (host + (name + "/"));
    assert IsPrefix(WwwPrefix, rest) && rest[|WwwPrefix|..] == host + (name + "/");
    assert (host + (name + "/"))[|host|..] == name + "/";
    assert (name + "/")[..|name|] == name;
  }

  /** For each platform, its host followed by a name is a valid link, in the plain
      form and in the "www." form with a trailing '/'. */
  lemma PlatformLinksAccepted(platform: string, name: string)
    requires HostOf(platform).Some? && Run(name)
    ensures var host := HostOf(platform).value;
            && ValidateSocialLink(Scheme + host + name, platform) == Some(true)
            && ValidateSocialLink(Scheme + WwwPrefix + host + name + "/", platform) == Some(true)
  {
    WellFormedLinksScan(HostOf(platform).value, name);
  }

  /** Concrete links the pattern refuses: "http", another platform's host, and a '.'
      in the name. */
  lemma PlainHttpRefused()
    ensures ValidateSocialLink("http://github.com/ada", "github") == Some(false)
  {
    assert "http://github.com/ada"[7] != Scheme[7];
  }

  lemma OtherHostRefused()
    ensures ValidateSocialLink("https://github.com/ada", "twitter") == Some(false)
  {
    var rest := "https://github.com/ada"[|Scheme|..];
    assert rest[0] == 'g';
  }

  lemma DotInNameRefused()
    ensures ValidateSocialLink("https://twitter.com/a.b", "twitter") == Some(false)
  {
    var rest := "https://twitter.com/a.b"[|Scheme|..];
    assert rest == "twitter.com/a.b" && rest[0] != 'w';
    assert rest[..|"twitter.com/"|] == "twitter.com/";
    var path := rest[|"twitter.com/"|..];
    assert path == "a.b" && !WordChar(path[1]);
  }

  /** An entry of the links object passes the save loop's check. */
  predicate EntryOk(entry: (string, string))
  {
    ValidateSocialLink(entry.1, entry.0) == Some(true)
  }

  /** The index of the first entry that stops the save, `|links|` when none does. */
  function FirstProblem(links: Object<string>): (i: nat)
    ensures i <= |links|
    ensures forall j :: 0 <= j < i ==> EntryOk(links[j])
    ensures i < |links| ==> !EntryOk(links[i])
  {
    if links == [] then 0
    else if !EntryOk(links[0]) then 0
    else 1 + FirstProblem(links[1..])
  }

  /** How a save attempt ends: the update is issued, an alert names an invalid
      platform, or an unknown platform with a link throws. */
  datatype Verdict = Save | Invalid(platform: string) | Crash(platform: string)

  function VerdictOf(links: Object<string>): (v: Verdict)
    ensures v == Save <==> forall j :: 0 <= j < |links| ==> EntryOk(links[j])
    ensures v.Invalid? || v.Crash? ==> v.platform in Keys(links)
  {
    var i := FirstProblem(links);
    if i == |links| then Save
    else
      KeysAt(links);
      if ValidateSocialLink(links[i].1, links[i].0).None? then Crash(links[i].0)
      else Invalid(links[i].0)
  }

  /** An entry that fails after a run of entries that pass decides the verdict. */
  lemma VerdictAtFirstProblem(links: Object<string>, i: nat)
    requires i < |links| && !EntryOk(links[i]) && i <= FirstProblem(links)
    ensures FirstProblem(links) == i
    ensures VerdictOf(links) ==
              if ValidateSocialLink(links[i].1, links[i].0).None? then Crash(links[i].0) else Invalid(links[i].0)
  {
  }

  /** An entry that passes, with no problem before it, moves the first problem on. */
  lemma PassesBeyond(links: Object<string>, i: nat)
    requires i < |links| && EntryOk(links[i]) && i <= FirstProblem(links)
    ensures i + 1 <= FirstProblem(links)
  {
  }

  function AlertText(platform: string): string { "Invalid " + platform + " URL format" }

  // ---------------------------------------------------------------- preferences

  datatype Visibility = Visibility(profileVisibility: string, activityHistory: bool, lastSeen: bool)

  const DefaultVisibility: Visibility := Visibility("private", true, true)

  const DefaultNotifications: Object<bool> :=
    [("marketing", true), ("securityAlerts", true), ("updates", true),
     ("appointments", true), ("predictions", true)]

  const DefaultLinks: Object<string> := [("linkedin", ""), ("github", ""), ("twitter", "")]

  /** The `preferences` column of a profile row. */
  datatype Preferences = Preferences(visibility: Option<Visibility>, notifications: Option<Object<bool>>)

  /** The row `loadUserPreferences` reads; `None` fields are null or missing. */
  datatype PreferenceRow = PreferenceRow(preferences: Option<Preferences>, socialLinks: Option<Object<string>>)

  /** The reply to the preference query: an error, or the row (which may be null). */
  datatype RowReply = RowError | Row(row: Option<PreferenceRow>)

  /** `{...prefs, [key]: checked}`. */
  function Toggle(prefs: Object<bool>, key: string, checked: bool): Object<bool>
  {
    Put(Spread([], prefs), key, checked)
  }

  /** A toggle sets its own key and leaves every other key as it was. */
  lemma ToggleOnlyOwnKey(prefs: Object<bool>, key: string, checked: bool, other: string)
    requires UniqueKeys(prefs)
    ensures Get(Toggle(prefs, key, checked), key) == Some(checked)
    ensures other != key ==> Get(Toggle(prefs, key, checked), other) == Get(prefs, other)
    ensures key in Keys(prefs) ==> Keys(Toggle(prefs, key, checked)) == Keys(prefs)
  {
    SpreadCopies(prefs);
    PutGet(prefs, key, checked, other);
    PutGet(prefs, key, checked, key);
    if key in Keys(prefs) {
      PutKeys(prefs, key, checked);
    }
  }

  /** What the page sends out, in order. */
  datatype SettingsEffect =
    | Alert(message: string)
    | UpdateSocialLinks(userId: Option<string>, links: Object<string>)

  /** The page's preference state. */
  class Settings {
    var visibility: Visibility
    var notifications: Object<bool>
    var socialLinks: Object<string>
    var notificationPermission: string
    var pushEnabled: bool
    var effects: seq<SettingsEffect>

    constructor ()
      ensures visibility == DefaultVisibility && notifications == DefaultNotifications
      ensures socialLinks == DefaultLinks && notificationPermission == "default"
      ensures !pushEnabled && effects == []
    {
      visibility := DefaultVisibility;
      notifications := DefaultNotifications;
      socialLinks := DefaultLinks;
      notificationPermission := "default";
      pushEnabled := false;
      effects := [];
    }

    /** `loadUserPreferences`: each part of the row replaces the current value only
        when present; an error or a null row changes nothing. */
    method LoadUserPreferences(reply: RowReply)
      modifies this
      ensures reply.Row? && reply.row.Some? ==>
                var row := reply.row.value;
                && visibility == (if row.preferences.Some? && row.preferences.value.visibility.Some?
                                  then row.preferences.value.visibility.value else old(visibility))
                && notifications == (if row.preferences.Some? && row.preferences.value.notifications.Some?
                                     then row.preferences.value.notifications.value else old(notifications))
                && socialLinks == (if row.socialLinks.Some? then row.socialLinks.value else old(socialLinks))
      ensures !(reply.Row? && reply.row.Some?) ==>
                visibility == old(visibility) && notifications == old(notifications)
                && socialLinks == old(socialLinks)
      ensures notificationPermission == old(notificationPermission) && pushEnabled == old(pushEnabled)
      ensures effects == old(effects)
    {
      if reply.Row? && reply.row.Some? {
        var row := reply.row.value;
        var prefs := row.preferences;
        visibility := if prefs.Some? then prefs.value.visibility.GetOr(visibility) else visibility;
        notifications := if prefs.Some? then prefs.value.notifications.GetOr(notifications) else notifications;
        socialLinks := row.socialLinks.GetOr(socialLinks);
      }
    }

    /** `checkNotificationPermission`: copies the browser's permission when the API exists. */
    method CheckNotificationPermission(supported: bool, permission: string)
      modifies this
      ensures notificationPermission == (if supported then permission else old(notificationPermission))
      ensures pushEnabled == old(pushEnabled) && visibility == old(visibility)
      ensures notifications == old(notifications) && socialLinks == old(socialLinks) && effects == old(effects)
    {
      if supported {
        notificationPermission := permission;
      }
    }

    /** `requestNotificationPermission`: push is enabled exactly when the answer is
        "granted"; without the API nothing changes. */
    method RequestNotificationPermission(supported: bool, permission: string)
      modifies this
      ensures supported ==> notificationPermission == permission && (pushEnabled <==> permission == "granted")
      ensures !supported ==> notificationPermission == old(notificationPermission) && pushEnabled == old(pushEnabled)
      ensures visibility == old(visibility) && notifications == old(notifications)
      ensures socialLinks == old(socialLinks) && effects == old(effects)
    {
      if supported {
        notificationPermission := permission;
        pushEnabled := permission == "granted";
      }
    }

    /** A notification checkbox. */
    method ToggleNotification(key: string, checked: bool)
      modifies this
      ensures notifications == Toggle(old(notifications), key, checked)
      ensures visibility == old(visibility) && socialLinks == old(socialLinks)
      ensures notificationPermission == old(notificationPermission) && pushEnabled == old(pushEnabled)
      ensures effects == old(effects)
    {
      notifications := Toggle(notifications, key, checked);
    }

    /** The profile-visibility select and the two visibility checkboxes. */
    method SetVisibility(profileVisibility: Option<string>, activityHistory: Option<bool>, lastSeen: Option<bool>)
      modifies this
      ensures visibility == Visibility(profileVisibility.GetOr(old(visibility).profileVisibility),
                                       activityHistory.GetOr(old(visibility).activityHistory),
                                       lastSeen.GetOr(old(visibility).lastSeen))
      ensures notifications == old(notifications) && socialLinks == old(socialLinks)
      ensures notificationPermission == old(notificationPermission) && pushEnabled == old(pushEnabled)
      ensures effects == old(effects)
    {
      visibility := Visibility(profileVisibility.GetOr(visibility.profileVisibility),
                               activityHistory.GetOr(visibility.activityHistory),
                               lastSeen.GetOr(visibility.lastSeen));
    }

    /** A social-link input: `{...socialLinks, [platform]: value}`. */
    method EditLink(platform: string, value: string)
      modifies this
      ensures socialLinks == Put(Spread([], old(socialLinks)), platform, value)
      ensures visibility == old(visibility) && notifications == old(notifications)
      ensures notificationPermission == old(notificationPermission) && pushEnabled == old(pushEnabled)
      ensures effects == old(effects)
    {
      socialLinks := Put(Spread([], socialLinks), platform, value);
    }

    /** `handleSocialLinksUpdate`: the entries are checked in order; the first invalid
        one raises an alert and ends the handler, an unknown platform with a link
        throws, and only when every entry passes is the update issued. */
    method HandleSocialLinksUpdate(userId: Option<string>) returns (verdict: Verdict)
      modifies this
      ensures verdict == VerdictOf(socialLinks)
      ensures verdict == Save ==> effects == old(effects) + [UpdateSocialLinks(userId, socialLinks)]
      ensures verdict.Invalid? ==> effects == old(effects) + [Alert(AlertText(verdict.platform))]
      ensures verdict.Crash? ==> effects == old(effects)
      ensures socialLinks == old(socialLinks) && visibility == old(visibility)
      ensures notifications == old(notifications)
      ensures notificationPermission == old(notificationPermission) && pushEnabled == old(pushEnabled)
    {
      var i := 0;
      while i < |socialLinks|
        invariant 0 <= i <= |socialLinks|
        invariant i <= FirstProblem(socialLinks)
        invariant unchanged(this)
      {
        var entry := socialLinks[i];
        if entry.1 != [] {
          var valid := ValidateSocialLink(entry.1, entry.0);
          if valid.None? {
            VerdictAtFirstProblem(socialLinks, i);
            return Crash(entry.0);
          }
          if !valid.value {
            VerdictAtFirstProblem(socialLinks, i);
            effects := effects + [Alert(AlertText(entry.0))];
            return Invalid(entry.0);
          }
        }
        PassesBeyond(socialLinks, i);
        i := i + 1;
      }
      effects := effects + [UpdateSocialLinks(userId, socialLinks)];
      return Save;
    }
  }

  /** An untouched page saves: the default links are all empty. */
  lemma DefaultLinksSave()
    ensures VerdictOf(DefaultLinks) == Save
  {
    assert forall j :: 0 <= j < |DefaultLinks| ==> DefaultLinks[j].1 == [];
  }
}
