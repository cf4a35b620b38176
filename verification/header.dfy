/**
 * The page header: the avatar address built from the `headshot` prop, the initial shown
 * when there is no avatar, and the menu chosen by user type.
 */
module Header {
  import opened Wrappers
  import opened Json
  import JsString

  /** The CDN used when `VITE_CDN_DOMAIN` is not set. */
  const DefaultCdn: string := "https://mcg-apps-data.s3.us-east-2.amazonaws.com"

  /** `v.replace(/^\/+/, "")`. */
  function StripLeadingSlashes(s: string): (r: string)
    ensures r == "" || r[0] != '/'
    ensures |r| <= |s| && r == s[|s| - |r|..]
    ensures forall i :: 0 <= i < |s| - |r| ==> s[i] == '/'
  {
    if s != [] && s[0] == '/' then StripLeadingSlashes(s[1..]) else s
  }

  /** `/^https?:\/\//i.test(v)`: "http://" or "https://" in any case at the start. */
  predicate IsHttpUrl(v: string)
  {
    || (|v| >= 7 && JsString.ToLower(v[..7]) == "http://")
    || (|v| >= 8 && JsString.ToLower(v[..8]) == "https://")
  }

  /** The CDN base: `VITE_CDN_DOMAIN`, or the default bucket when unset or empty. */
  function Cdn(env: Option<string>): string
  {
    if env.Some? && env.value != "" then env.value else DefaultCdn
  }

  /**
   * `avatarUrl`: no avatar for a value that is not a string or is blank; a trimmed data URL
   * or http(s) URL as it is; any other value is an S3 key, served from the CDN with its
   * leading slashes removed.
   */
  function AvatarUrl(headshot: Option<Json>, cdnEnv: Option<string>): (r: Option<string>)
    ensures r.None? <==> !(headshot.Some? && headshot.value.Str?) || JsString.Trim(headshot.value.s) == ""
    ensures r.Some? ==>
      var v := JsString.Trim(headshot.value.s);
      if JsString.StartsWith(v, "data:image") || IsHttpUrl(v) then r.value == v
      else r.value == Cdn(cdnEnv) + "/" + StripLeadingSlashes(v)
  {
    if !(headshot.Some? && headshot.value.Str?) || JsString.Trim(headshot.value.s) == "" then None
    else
      var v := JsString.Trim(headshot.value.s);
      if JsString.StartsWith(v, "data:image") then Some(v)
      else if IsHttpUrl(v) then Some(v)
      else Some(Cdn(cdnEnv) + "/" + StripLeadingSlashes(v))
  }

  /**
   * An avatar address is a fixed point: fed back as the prop it yields itself, as long as the
   * CDN base is an http(s) address with no surrounding blanks.
   */
  lemma AvatarUrlStable(headshot: Option<Json>, cdnEnv: Option<string>)
    requires AvatarUrl(headshot, cdnEnv).Some?
    requires IsHttpUrl(Cdn(cdnEnv)) && !JsString.IsWhitespace(Cdn(cdnEnv)[0])
    ensures AvatarUrl(Some(Str(AvatarUrl(headshot, cdnEnv).value)), cdnEnv) == AvatarUrl(headshot, cdnEnv)
  {
    var s := headshot.value.s;
    var v := JsString.Trim(s);
    var r := AvatarUrl(headshot, cdnEnv).value;
    if JsString.StartsWith(v, "data:image") || IsHttpUrl(v) {
      assert r == v;
      JsString.TrimIdempotent(s);
      PassesThrough(v, cdnEnv);
    } else {
      var cdn := Cdn(cdnEnv);
      var key := StripLeadingSlashes(v);
      assert r == cdn + "/" + key;
      KeyAddressStable(cdn, key, v, cdnEnv);
    }
  }

  /** The CDN address of a key is returned as it is. */
  lemma KeyAddressStable(cdn: string, key: string, v: string, cdnEnv: Option<string>)
    requires cdn == Cdn(cdnEnv) && IsHttpUrl(cdn) && !JsString.IsWhitespace(cdn[0])
    requires v != "" && !JsString.IsWhitespace(v[|v| - 1])
    requires key == StripLeadingSlashes(v)
    ensures AvatarUrl(Some(Str(cdn + "/" + key)), cdnEnv) == Some(cdn + "/" + key)
  {
    var r := cdn + "/" + key;
    KeyAddressTrimmed(cdn, key, v);
    HttpPrefixExtends(cdn, "/");
    HttpPrefixExtends(cdn + "/", key);
    PassesThrough(r, cdnEnv);
  }

  /** A trimmed data URL or http(s) address is returned as it is. */
  lemma PassesThrough(r: string, cdnEnv: Option<string>)
    requires JsString.Trim(r) == r && r != ""
    requires JsString.StartsWith(r, "data:image") || IsHttpUrl(r)
    ensures AvatarUrl(Some(Str(r)), cdnEnv) == Some(r)
  {
  }

  /** Text after an http(s) prefix keeps it one. */
  lemma HttpPrefixExtends(cdn: string, rest: string)
    requires IsHttpUrl(cdn)
    ensures IsHttpUrl(cdn + rest)
  {
    var r := cdn + rest;
    if |cdn| >= 8 && JsString.ToLower(cdn[..8]) == "https://" {
      assert r[..8] == cdn[..8];
    } else {
      assert r[..7] == cdn[..7];
    }
  }

  /** The CDN address of a key taken from a trimmed value has no surrounding blanks. */
  lemma KeyAddressTrimmed(cdn: string, key: string, v: string)
    requires cdn != "" && !JsString.IsWhitespace(cdn[0])
    requires v != "" && !JsString.IsWhitespace(v[|v| - 1])
    requires key == StripLeadingSlashes(v)
    ensures var r := cdn + "/" + key; JsString.Trim(r) == r && r != ""
  {
    KeyAddressEnds(cdn, key, v);
    JsString.TrimOfClean(cdn + "/" + key);
  }

  /** The CDN address of such a key starts with the CDN's first character and ends in no blank. */
  lemma KeyAddressEnds(cdn: string, key: string, v: string)
    requires cdn != "" && !JsString.IsWhitespace(cdn[0])
    requires v != "" && !JsString.IsWhitespace(v[|v| - 1])
    requires key == StripLeadingSlashes(v)
    ensures var r := cdn + "/" + key; !JsString.IsWhitespace(r[0]) && !JsString.IsWhitespace(r[|r| - 1])
  {
    var r := cdn + "/" + key;
    assert r[0] == cdn[0];
    if key == "" {
      assert r[|r| - 1] == '/';
    } else {
      assert r[|r| - 1] == key[|key| - 1] == v[|v| - 1];
    }
  }

  /** The bubble shown without an avatar: the first letter of the first name, uppercased, or "?". */
  function Initial(firstname: Option<string>): (r: string)
    ensures |r| == 1
    ensures firstname.None? || firstname.value == "" ==> r == "?"
    ensures firstname.Some? && firstname.value != "" ==> r[0] == JsString.UpperChar(firstname.value[0])
  {
    if firstname.None? || firstname.value == "" then "?" else [JsString.UpperChar(firstname.value[0])]
  }

  /** The menu's links, by user type. */
  function Menu(usertype: Option<Json>): (links: seq<string>)
    ensures |links| >= 3 && links[0] == "/events" && links[|links| - 1] == "/logout"
  {
    if usertype == Some(Str("candidate")) then ["/events", "/application", "/logout"]
    else ["/events", "/feedback", "/conflict", "/logout"]
  }

  /** Candidates, and only they, see Apply; everyone else sees Feedback and Conflict instead. */
  lemma MenuByType(usertype: Option<Json>)
    ensures "/application" in Menu(usertype) <==> usertype == Some(Str("candidate"))
    ensures "/feedback" in Menu(usertype) <==> usertype != Some(Str("candidate"))
    ensures "/conflict" in Menu(usertype) <==> usertype != Some(Str("candidate"))
  {
    if usertype == Some(Str("candidate")) {
      assert Menu(usertype) == ["/events", "/application", "/logout"];
    } else {
      assert Menu(usertype) == ["/events", "/feedback", "/conflict", "/logout"];
    }
  }
}
