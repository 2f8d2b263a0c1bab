/**
 * How a chunked-HTTP request names its session: the path (up to the first
 * '?') is split on '/', and the segment after the route prefix is the id;
 * an absent or blank segment gets a generated id instead.
 */
module Routing {
  import opened JsText

  /** Prefix of a server-generated id; the rest is a fresh random UUID. */
  const GeneratedPrefix: string := "stream-none-"

  /**
   * The id a request URL carries, or `GeneratedPrefix + freshUuid` when it
   * carries none (`freshUuid` stands for `crypto.randomUUID()`).
   */
  function SessionIdOf(url: string, freshUuid: string): (id: string)
    ensures id != ""
    ensures id == GeneratedPrefix + freshUuid || ('/' !in id && '?' !in id && !IsBlank(id))
  {
    var path := Split(url, '?')[0];
    var parts := Split(path, '/');
    SplitKeepsAbsent(path, '/', '?');
    if |parts| > 2 && !IsBlank(parts[2]) then parts[2] else GeneratedPrefix + freshUuid
  }

  /** The path of a URL is everything before its first '?'. */
  lemma PathOfUrl(lead: string, rest: string)
    requires '?' !in lead
    ensures Split(lead + rest, '?')[0] == lead + rest[..FirstIndex(rest, '?')]
  {
    FirstIndexAppend(lead, rest, '?');
    SplitHead(lead + rest, '?');
    assert (lead + rest)[..|lead| + FirstIndex(rest, '?')] == lead + rest[..FirstIndex(rest, '?')];
  }

  /** The first '/'-separated piece of `id` followed by a path tail is `id`. */
  lemma LeadingSegment(id: string, tail: string)
    requires '/' !in id
    requires tail == [] || tail[0] == '/'
    ensures Split(id + tail, '/')[0] == id
  {
    SplitHead(id + tail, '/');
    FirstIndexAppend(id, tail, '/');
    assert (id + tail)[..|id|] == id;
  }

  /** The third '/'-separated segment of "/route/id..." is the id. */
  lemma ThirdSegment(route: string, id: string, tail: string)
    requires '/' !in route && '/' !in id
    requires tail == [] || tail[0] == '/'
    ensures var parts := Split("/" + route + "/" + id + tail, '/'); |parts| > 2 && parts[2] == id
  {
    var rest := Split(id + tail, '/');
    var url := "/" + route + "/" + id + tail;
    assert Split(url, '/') == [[], route] + rest by {
      var inner := route + ['/'] + (id + tail);
      assert url == [] + ['/'] + inner;
      SplitCons([], '/', inner);
      SplitCons(route, '/', id + tail);
    }
    assert rest[0] == id by {
      LeadingSegment(id, tail);
    }
  }

  /** The leading '/', then the route segment, then the id: the id is what comes back. */
  lemma SessionIdRoundTrip(route: string, id: string, rest: string, freshUuid: string)
    requires '/' !in route && '?' !in route
    requires '/' !in id && '?' !in id && !IsBlank(id)
    requires rest == [] || rest[0] == '/' || rest[0] == '?'
    ensures SessionIdOf("/" + route + "/" + id + rest, freshUuid) == id
  {
    var lead := "/" + route + "/" + id;
    assert '?' !in lead;
    assert "/" + route + "/" + id + rest == lead + rest;
    PathOfUrl(lead, rest);
    var tail := rest[..FirstIndex(rest, '?')];
    assert tail == [] || tail[0] == '/';
    assert lead + tail == "/" + route + "/" + id + tail;
    ThirdSegment(route, id, tail);
  }

  /** A URL with only the route segment gets a generated id. */
  lemma MissingIdIsGenerated(route: string, query: string, freshUuid: string)
    requires '/' !in route && '?' !in route
    requires query == [] || query[0] == '?'
    ensures SessionIdOf("/" + route + query, freshUuid) == GeneratedPrefix + freshUuid
  {
    var url := "/" + route + query;
    var lead := "/" + route;
    assert url == lead + query;
    FirstIndexAppend(lead, query, '?');
    SplitHead(url, '?');
    var path := Split(url, '?')[0];
    assert path == [] + ['/'] + route;
    SplitCons([], '/', route);
    SplitNoSep(route, '/');
    assert Split(path, '/') == [[], route];
  }

  /** A blank id segment (`trim() === ''`) gets a generated id. */
  lemma BlankIdIsGenerated(route: string, blank: string, freshUuid: string)
    requires '/' !in route && '?' !in route
    requires IsBlank(blank) && '/' !in blank && '?' !in blank
    ensures SessionIdOf("/" + route + "/" + blank, freshUuid) == GeneratedPrefix + freshUuid
  {
    var url := "/" + route + "/" + blank;
    assert '?' !in url;
    SplitNoSep(url, '?');
    assert url == [] + ['/'] + (route + ['/'] + blank);
    SplitCons([], '/', route + ['/'] + blank);
    SplitCons(route, '/', blank);
    SplitNoSep(blank, '/');
    assert Split(url, '/') == [[], route, blank];
  }
}
