/**
 * Resolving a channel URL to one of the three ways the YouTube Data API names a channel
 * (an opaque id, a handle, a legacy username), and the query parameter that carries it.
 * The URL parser itself is not modelled: its result is the pathname, or None when
 * `new URL` throws.
 */
module ChannelIdentifiers {
  import opened Wrappers
  import opened Text

  datatype IdentifierType = Id | ForHandle | ForUsername

  datatype ChannelIdentifier = ChannelIdentifier(kind: IdentifierType, value: string)

  const ApiBaseUrl := "https://www.googleapis.com/youtube/v3"

  /** Channel tab names and path prefixes that are never a bare channel name. */
  const ReservedSegments: seq<string> :=
    ["channel", "c", "user", "videos", "featured", "playlists", "community", "about", "live"]

  /** `pathname.split('/').filter(Boolean)`. */
  function PathSegments(pathname: string): (segs: seq<string>)
    ensures forall i :: 0 <= i < |segs| ==> segs[i] != "" && '/' !in segs[i]
  {
    NonEmpty(SplitSlash(pathname))
  }

  /** The URL shapes the resolver accepts, stated on the segment list. */
  predicate Recognized(segs: seq<string>) {
    |segs| >= 1 &&
    (StartsWith(segs[0], "@")
     || (|segs| >= 2 && segs[0] in ["channel", "c", "user"])
     || (|segs| == 1 && segs[0] !in ReservedSegments))
  }

  /** getChannelIdentifier; `pathname` is None when the URL does not parse. */
  function GetChannelIdentifier(pathname: Option<string>): (r: Option<ChannelIdentifier>)
    ensures pathname.None? ==> r.None?
    ensures pathname.Some? ==> (r.Some? <==> Recognized(PathSegments(pathname.value)))
    ensures r.Some? ==> r.value.value != "" && '/' !in r.value.value
  {
    match pathname
    case None => None
    case Some(p) =>
      var segs := PathSegments(p);
      if |segs| >= 1 then
        var first := segs[0];
        var second: Option<string> := if |segs| >= 2 then Some(segs[1]) else None;
        if StartsWith(first, "@") then Some(ChannelIdentifier(ForHandle, first))
        else if first == "channel" && Truthy(second) then Some(ChannelIdentifier(Id, second.value))
        else if first == "c" && Truthy(second) then Some(ChannelIdentifier(ForUsername, second.value))
        else if first == "user" && Truthy(second) then Some(ChannelIdentifier(ForUsername, second.value))
        else if |segs| == 1 && '/' !in first && first !in ReservedSegments then
          if StartsWith(first, "UC") then Some(ChannelIdentifier(Id, first))
          else Some(ChannelIdentifier(ForHandle, first))
        else None
      else None
  }

  /** Splitting a slash-free piece followed by a slash (or nothing). */
  lemma {:induction false} SplitPiece(h: string, u: string)
    requires '/' !in h
    ensures SplitSlash(h) == [h]
    ensures SplitSlash(h + "/" + u) == [h] + SplitSlash(u)
  {
    if h != [] {
      SplitPiece(h[1..], u);
      assert (h + "/" + u)[1..] == h[1..] + "/" + u;
      assert [h[0]] + h[1..] == h;
    } else {
      assert h + "/" + u == "/" + u;
      assert ("/" + u)[1..] == u;
    }
  }

  /** The segments of "/h" and of "/h/u" for a slash-free, non-empty piece h. */
  lemma SegmentsCons(h: string, u: string)
    requires h != "" && '/' !in h
    ensures PathSegments("/" + h) == [h]
    ensures PathSegments("/" + h + "/" + u) == [h] + PathSegments(u)
  {
    SplitPiece(h, u);
    assert ("/" + h)[1..] == h;
    assert SplitSlash("/" + h) == [""] + [h];
    assert NonEmpty([""] + [h]) == NonEmpty([h]);
    assert NonEmpty([h]) == [h] + NonEmpty([]);
    assert ("/" + h + "/" + u)[1..] == h + "/" + u;
    var rest := SplitSlash(u);
    assert SplitSlash("/" + h + "/" + u) == [""] + ([h] + rest);
    assert NonEmpty([""] + ([h] + rest)) == NonEmpty([h] + rest);
    assert ([h] + rest)[1..] == rest;
  }

  /** `/@X` and `/@X/anything` give forHandle with the '@' kept. */
  lemma HandleUrl(h: string, u: string)
    requires StartsWith(h, "@") && '/' !in h
    ensures GetChannelIdentifier(Some("/" + h)) == Some(ChannelIdentifier(ForHandle, h))
    ensures GetChannelIdentifier(Some("/" + h + "/" + u)) == Some(ChannelIdentifier(ForHandle, h))
  {
    SegmentsCons(h, u);
  }

  /** A string whose first character is not the prefix's first character does not start with it. */
  lemma NotStartsWith(s: string, prefix: string)
    requires s != [] && prefix != [] && s[0] != prefix[0]
    ensures !StartsWith(s, prefix)
  {
    if |prefix| <= |s| {
      assert s[..|prefix|][0] == s[0];
    }
  }

  /** The segments of "h" and of "h/u" for a slash-free, non-empty piece h. */
  lemma SegmentsOfPiece(h: string, u: string)
    requires h != "" && '/' !in h
    ensures PathSegments(h) == [h]
    ensures PathSegments(h + "/" + u) == [h] + PathSegments(u)
  {
    SplitPiece(h, u);
    assert NonEmpty([h]) == [h] + NonEmpty([]);
    var rest := SplitSlash(u);
    assert ([h] + rest)[1..] == rest;
  }

  /** The segments of "/pre/s" and of "/pre/s/u" for slash-free, non-empty pieces. */
  lemma PrefixedSegments(pre: string, s: string, u: string)
    requires pre != "" && '/' !in pre && s != "" && '/' !in s
    ensures PathSegments("/" + pre + "/" + s) == [pre, s]
    ensures var segs := PathSegments("/" + pre + "/" + s + "/" + u);
            |segs| >= 2 && segs[0] == pre && segs[1] == s
  {
    SegmentsCons(pre, s);
    SegmentsCons(pre, s + "/" + u);
    SegmentsOfPiece(s, u);
    assert "/" + pre + "/" + s + "/" + u == "/" + pre + "/" + (s + "/" + u);
  }

  /** `/channel/<s>`, with or without more segments after it, gives id(s). */
  lemma ChannelPathUrl(s: string, u: string)
    requires s != "" && '/' !in s
    ensures GetChannelIdentifier(Some("/channel/" + s)) == Some(ChannelIdentifier(Id, s))
    ensures GetChannelIdentifier(Some("/channel/" + s + "/" + u)) == Some(ChannelIdentifier(Id, s))
  {
    PrefixedSegments("channel", s, u);
    assert "/channel/" + s == "/" + "channel" + "/" + s;
    assert "/channel/" + s + "/" + u == "/" + "channel" + "/" + s + "/" + u;
    NotStartsWith("channel", "@");
  }

  /** `/c/<s>` and `/user/<s>`, with or without further segments, give forUsername(s). */
  lemma UsernameUrl(s: string, u: string)
    requires s != "" && '/' !in s
    ensures GetChannelIdentifier(Some("/c/" + s)) == Some(ChannelIdentifier(ForUsername, s))
    ensures GetChannelIdentifier(Some("/user/" + s)) == Some(ChannelIdentifier(ForUsername, s))
    ensures GetChannelIdentifier(Some("/c/" + s + "/" + u)) == Some(ChannelIdentifier(ForUsername, s))
    ensures GetChannelIdentifier(Some("/user/" + s + "/" + u)) == Some(ChannelIdentifier(ForUsername, s))
  {
    PrefixedSegments("c", s, u);
    PrefixedSegments("user", s, u);
    assert "/c/" + s == "/" + "c" + "/" + s;
    assert "/user/" + s == "/" + "user" + "/" + s;
    assert "/c/" + s + "/" + u == "/" + "c" + "/" + s + "/" + u;
    assert "/user/" + s + "/" + u == "/" + "user" + "/" + s + "/" + u;
    NotStartsWith("c", "@");
    NotStartsWith("user", "@");
  }

  /** A single non-reserved segment: id when it starts with "UC", otherwise forHandle. */
  lemma BareNameUrl(s: string)
    requires s != "" && '/' !in s && s !in ReservedSegments && !StartsWith(s, "@")
    ensures GetChannelIdentifier(Some("/" + s)) ==
            Some(ChannelIdentifier(if StartsWith(s, "UC") then Id else ForHandle, s))
  {
    SegmentsCons(s, "");
  }

  /** The root path and reserved tabs on their own resolve to nothing. */
  lemma UnrecognizedUrls(tab: string)
    requires tab in ReservedSegments
    ensures GetChannelIdentifier(Some("/")) == None
    ensures GetChannelIdentifier(Some("/" + tab)) == None
  {
    assert SplitSlash("/") == ["", ""] by {
      assert "/"[1..] == "";
    }
    assert tab == "channel" || tab == "c" || tab == "user" || tab == "videos" || tab == "featured"
      || tab == "playlists" || tab == "community" || tab == "about" || tab == "live";
    assert '/' !in tab && tab[0] != '@';
    NotStartsWith(tab, "@");
    SegmentsCons(tab, "");
  }

  function ParamName(kind: IdentifierType): string {
    match kind
    case Id => "id"
    case ForHandle => "forHandle"
    case ForUsername => "forUsername"
  }

  /** The value sent for the identifier: a handle loses one leading '@', others are verbatim. */
  function QueryValue(ident: ChannelIdentifier): (v: string)
    ensures ident.kind != ForHandle ==> v == ident.value
    ensures v == ident.value || "@" + v == ident.value
    ensures ident.kind == ForHandle && StartsWith(ident.value, "@") ==> "@" + v == ident.value
  {
    if ident.kind == ForHandle && StartsWith(ident.value, "@") then ident.value[1..]
    else ident.value
  }

  /** The channels endpoint URL requested for an identifier. */
  function ChannelApiUrl(apiKey: string, ident: ChannelIdentifier): string {
    ApiBaseUrl + "/channels?part=snippet,contentDetails&key=" + apiKey
      + "&" + ParamName(ident.kind) + "=" + QueryValue(ident)
  }

  /** For `/@X/...` the request carries `forHandle=X`. */
  lemma HandleUrlQuery(x: string, u: string, apiKey: string)
    requires '/' !in x
    ensures var ident := GetChannelIdentifier(Some("/@" + x + "/" + u));
            ident.Some? &&
            ChannelApiUrl(apiKey, ident.value) ==
              ApiBaseUrl + "/channels?part=snippet,contentDetails&key=" + apiKey + "&forHandle=" + x
  {
    var h := "@" + x;
    assert StartsWith(h, "@");
    HandleUrl(h, u);
    assert "/@" + x + "/" + u == "/" + h + "/" + u;
    assert h[1..] == x;
    var prefix := ApiBaseUrl + "/channels?part=snippet,contentDetails&key=" + apiKey;
    assert ChannelApiUrl(apiKey, ChannelIdentifier(ForHandle, h)) == prefix + "&" + "forHandle" + "=" + x;
    assert "&" + "forHandle" + "=" == "&forHandle=";
    assert prefix + "&" + "forHandle" + "=" + x == prefix + ("&" + "forHandle" + "=") + x;
  }
}
