/** The time-to-live cache in front of the RSS fetch of the `/get-rss`
    handler (server.js:27-59): a process-wide map from feed URL to the body
    last fetched for it and the time it was fetched. The clock reading and the
    upstream fetch are parameters of each request. */
module RssCache {
  import opened Optional
  import opened Decimal
  import opened Http

  /** Two minutes, in milliseconds. */
  const CacheDurationMs: int := 2 * 60 * 1000

  /** One cached feed: its body and the clock reading taken when the request
      that fetched it started. */
  datatype Entry = Entry(data: string, timestamp: int)

  /** What the upstream fetch of the feed did: it answered with a status and a
      body, or it threw (network error, or the body could not be read). */
  datatype FetchOutcome = Responded(status: nat, text: string) | Failed(message: string)

  /** One `/get-rss` request: the `url` query parameter, the clock reading at
      its start, and what the upstream fetch would do if it were made. */
  datatype Request = Request(url: Option<string>, now: int, outcome: FetchOutcome)

  /** The response of one request, the cache after it, and whether the
      upstream fetch was made. */
  datatype Transition = Transition(response: Response, entries: map<string, Entry>, fetched: bool)

  const MissingUrl := "Thiếu tham số url"
  const FetchFailedPrefix := "Không thể lấy RSS feed: "
  const HttpErrorPrefix := "HTTP error! status: "

  /** An entry may be served at time `now` only while it is strictly younger
      than the time-to-live; an age of exactly the time-to-live is expired. */
  predicate Fresh(e: Entry, now: int) {
    now - e.timestamp < CacheDurationMs
  }

  /** The key of a request that gets past the missing-url check. */
  predicate Requested(r: Request) {
    Truthy(r.url)
  }

  /** A fresh entry exists for the requested key. */
  predicate Hit(entries: map<string, Entry>, r: Request)
    requires Requested(r)
  {
    r.url.value in entries && Fresh(entries[r.url.value], r.now)
  }

  predicate Succeeded(o: FetchOutcome) {
    o.Responded? && IsOk(o.status)
  }

  /** The `message` of the error the fetch step throws. */
  function FailureMessage(o: FetchOutcome): (m: string)
    requires !Succeeded(o)
    // a non-ok status is named in the message, and can be read back from it
    ensures o.Responded? ==>
      && |m| > |HttpErrorPrefix|
      && m[..|HttpErrorPrefix|] == HttpErrorPrefix
      && AllDigits(m[|HttpErrorPrefix|..])
      && DigitsValue(m[|HttpErrorPrefix|..]) == o.status
    // a thrown error keeps its own message
    ensures o.Failed? ==> m == o.message
  {
    match o
    case Responded(status, _) =>
      var digits := NatToString(status);
      NatToStringRoundTrip(status);
      assert (HttpErrorPrefix + digits)[|HttpErrorPrefix|..] == digits;
      HttpErrorPrefix + digits
    case Failed(message) => message
  }

  /** One request to `/get-rss`, as a function of the cache before it. */
  function Serve(entries: map<string, Entry>, r: Request): (t: Transition)
    // the upstream fetch is made exactly when a url is given and no fresh entry serves it
    ensures t.fetched <==> Requested(r) && !Hit(entries, r)
    // every key other than the requested one keeps its entry, or its absence
    ensures forall k :: (!Requested(r) || k != r.url.value) ==>
              (k in t.entries <==> k in entries) && (k in entries ==> t.entries[k] == entries[k])
    // the requested key is never left holding an expired entry
    ensures Requested(r) && r.url.value in t.entries ==> Fresh(t.entries[r.url.value], r.now)
    // the response is a 200 exactly when the cache served it or the fetch succeeded
    ensures t.response.status == 200 <==> Requested(r) && (!t.fetched || Succeeded(r.outcome))
  {
    if !Truthy(r.url) then
      Transition(Response(400, Text(MissingUrl)), entries, false)
    else
      var key := r.url.value;
      if key in entries && Fresh(entries[key], r.now) then
        Transition(Response(200, Xml(entries[key].data)), entries, false)
      else
        var evicted := entries - {key};
        if Succeeded(r.outcome) then
          Transition(Response(200, Xml(r.outcome.text)), evicted[key := Entry(r.outcome.text, r.now)], true)
        else
          Transition(Response(500, Text(FetchFailedPrefix + FailureMessage(r.outcome))), evicted, true)
  }

  /** The module-level `cache` Map of server.js, owned by one object. */
  class FeedCache {
    var entries: map<string, Entry>

    constructor ()
      ensures entries == map[]
    {
      entries := map[];
    }

    /** The `/get-rss` handler run as one atomic step: `url` is the query
        parameter, `now` the clock reading at the start of the request and
        `outcome` what the upstream fetch does if it is made. */
    method Get(url: Option<string>, now: int, outcome: FetchOutcome) returns (response: Response, fetched: bool)
      modifies this
      ensures Transition(response, entries, fetched) == Serve(old(entries), Request(url, now, outcome))
    {
      if url.None? || url.value == "" {
        return Response(400, Text(MissingUrl)), false;
      }
      var key := url.value;
      if key in entries {
        var cached := entries[key];
        if now - cached.timestamp < CacheDurationMs {
          return Response(200, Xml(cached.data)), false;
        } else {
          entries := entries - {key};
        }
      }
      fetched := true;
      match outcome {
        case Responded(status, text) =>
          if !(200 <= status <= 299) {
            response := Response(500, Text(FetchFailedPrefix + (HttpErrorPrefix + NatToString(status))));
          } else {
            entries := entries[key := Entry(text, now)];
            response := Response(200, Xml(text));
          }
        case Failed(message) =>
          response := Response(500, Text(FetchFailedPrefix + message));
      }
    }
  }

  /** A missing or empty url is a 400; nothing is fetched and the cache is untouched. */
  lemma MissingUrlRejected(entries: map<string, Entry>, r: Request)
    requires !Truthy(r.url)
    ensures Serve(entries, r) == Transition(Response(400, Text(MissingUrl)), entries, false)
  {
  }

  /** A fresh entry is served as XML, whatever upstream would have done, and
      the cache is untouched. */
  lemma FreshEntryServed(entries: map<string, Entry>, r: Request)
    requires Requested(r) && r.url.value in entries && Fresh(entries[r.url.value], r.now)
    ensures Serve(entries, r) == Transition(Response(200, Xml(entries[r.url.value].data)), entries, false)
  {
  }

  /** An expired entry is never served: the fetch is made, and afterwards the
      key holds what was just fetched, stamped with `now`, or nothing at all. */
  lemma ExpiredEntryNotServed(entries: map<string, Entry>, r: Request)
    requires Requested(r) && r.url.value in entries && !Fresh(entries[r.url.value], r.now)
    ensures Serve(entries, r).fetched
    ensures Succeeded(r.outcome) ==> Serve(entries, r).entries[r.url.value] == Entry(r.outcome.text, r.now)
    ensures !Succeeded(r.outcome) ==> r.url.value !in Serve(entries, r).entries
  {
  }

  /** A successful fetch stores the body with the clock reading taken before
      the fetch, overwriting whatever was there, and sends the body as XML. */
  lemma SuccessStored(entries: map<string, Entry>, r: Request)
    requires Requested(r) && !Hit(entries, r) && Succeeded(r.outcome)
    ensures Serve(entries, r) ==
      Transition(Response(200, Xml(r.outcome.text)), entries[r.url.value := Entry(r.outcome.text, r.now)], true)
  {
  }

  /** A failed fetch (a non-ok status or a thrown error) is a 500 whose body
      carries the error message; nothing is stored, and an expired entry that
      was evicted stays evicted. */
  lemma FailureStoresNothing(entries: map<string, Entry>, r: Request)
    requires Requested(r) && !Hit(entries, r) && !Succeeded(r.outcome)
    ensures Serve(entries, r) ==
      Transition(Response(500, Text(FetchFailedPrefix + FailureMessage(r.outcome))), entries - {r.url.value}, true)
  {
  }

  /** The 500 body of an upstream HTTP error names the status, and the status
      can be read back from it. */
  lemma HttpErrorNamesStatus(entries: map<string, Entry>, r: Request)
    requires Requested(r) && !Hit(entries, r) && r.outcome.Responded? && !IsOk(r.outcome.status)
    ensures var body := Serve(entries, r).response.body;
      && body.Text?
      && |body.text| > |FetchFailedPrefix + HttpErrorPrefix|
      && body.text[..|FetchFailedPrefix + HttpErrorPrefix|] == FetchFailedPrefix + HttpErrorPrefix
      && AllDigits(body.text[|FetchFailedPrefix + HttpErrorPrefix|..])
      && DigitsValue(body.text[|FetchFailedPrefix + HttpErrorPrefix|..]) == r.outcome.status
  {
    var m := FailureMessage(r.outcome);
    var text := Serve(entries, r).response.body.text;
    assert text == FetchFailedPrefix + m;
    assert text[|FetchFailedPrefix + HttpErrorPrefix|..] == m[|HttpErrorPrefix|..];
  }

  /** The requests of a trace, served one after the other from `entries`. */
  function Replay(entries: map<string, Entry>, rs: seq<Request>): (ts: seq<Transition>)
    ensures |ts| == |rs|
    decreases |rs|
  {
    if rs == [] then []
    else
      var t := Serve(entries, rs[0]);
      [t] + Replay(t.entries, rs[1..])
  }

  /** The cache after serving every request of a trace. */
  function After(entries: map<string, Entry>, rs: seq<Request>): map<string, Entry>
    decreases |rs|
  {
    if rs == [] then entries else After(Serve(entries, rs[0]).entries, rs[1..])
  }

  /** The i-th request of a trace is served from the cache the first i
      requests leave behind, and the rest of the trace continues from there. */
  lemma {:induction false} ReplayAt(entries: map<string, Entry>, rs: seq<Request>, i: nat)
    requires i < |rs|
    decreases i
    ensures Replay(entries, rs)[i] == Serve(After(entries, rs[..i]), rs[i])
    ensures After(entries, rs[..i + 1]) == Replay(entries, rs)[i].entries
    ensures Replay(entries, rs)[i + 1..] == Replay(After(entries, rs[..i + 1]), rs[i + 1..])
  {
    var t := Serve(entries, rs[0]);
    if i == 0 {
      assert rs[..1][1..] == [];
    } else {
      ReplayAt(t.entries, rs[1..], i - 1);
      assert rs[..i][1..] == rs[1..][..i - 1];
      assert rs[..i + 1][1..] == rs[1..][..i];
      assert rs[1..][i..] == rs[i + 1..];
    }
  }

  /** While every request of a trace (up to the n-th) is less than the
      time-to-live after an entry's timestamp, that entry stays in place and
      every request for its key is served from it without a fetch. */
  lemma {:induction false} EntryServesWhileFresh(entries: map<string, Entry>, rs: seq<Request>, n: nat, key: string)
    requires key != "" && key in entries
    requires n <= |rs|
    requires forall i :: 0 <= i < n ==> Fresh(entries[key], rs[i].now)
    decreases n
    ensures forall i :: 0 <= i < n && rs[i].url == Some(key) ==>
              !Replay(entries, rs)[i].fetched && Replay(entries, rs)[i].response == Response(200, Xml(entries[key].data))
  {
    if n > 0 {
      var t := Serve(entries, rs[0]);
      assert key in t.entries && t.entries[key] == entries[key];
      EntryServesWhileFresh(t.entries, rs[1..], n - 1, key);
      forall i | 0 <= i < n && rs[i].url == Some(key)
        ensures !Replay(entries, rs)[i].fetched && Replay(entries, rs)[i].response == Response(200, Xml(entries[key].data))
      {
        if i > 0 {
          assert Replay(entries, rs)[i] == Replay(t.entries, rs[1..])[i - 1];
        }
      }
    }
  }

  /** At most one upstream fetch per key within the time-to-live: once a
      request has fetched a feed successfully, a later request for the same
      url made less than the time-to-live after it (with a clock that does
      not run backwards in between) is served the same body from the cache,
      without a fetch. */
  lemma NoRefetchWithinTtl(entries: map<string, Entry>, rs: seq<Request>, i: nat, j: nat)
    requires i < j < |rs|
    requires Requested(rs[i]) && rs[j].url == rs[i].url
    requires Replay(entries, rs)[i].fetched && Succeeded(rs[i].outcome)
    requires forall m :: i < m < j ==> rs[m].now <= rs[j].now
    requires rs[j].now - rs[i].now < CacheDurationMs
    ensures !Replay(entries, rs)[j].fetched
    ensures Replay(entries, rs)[j].response == Response(200, Xml(rs[i].outcome.text))
  {
    var key := rs[i].url.value;
    ReplayAt(entries, rs, i);
    var s := After(entries, rs[..i + 1]);
    SuccessStored(After(entries, rs[..i]), rs[i]);
    assert s[key] == Entry(rs[i].outcome.text, rs[i].now);
    var rest := rs[i + 1..];
    EntryServesWhileFresh(s, rest, j - i, key);
    assert rest[j - i - 1] == rs[j];
    assert Replay(entries, rs)[j] == Replay(s, rest)[j - i - 1];
  }

  /** Once the time-to-live has passed since a successful fetch, the next
      request for the url fetches again and, if that succeeds, the entry's
      timestamp is replaced by the new request's clock reading. */
  lemma RefetchAfterTtl(entries: map<string, Entry>, first: Request, second: Request)
    requires Requested(first) && second.url == first.url
    requires Serve(entries, first).fetched && Succeeded(first.outcome)
    requires second.now - first.now >= CacheDurationMs
    ensures Serve(Serve(entries, first).entries, second).fetched
    ensures Succeeded(second.outcome) ==>
      Serve(Serve(entries, first).entries, second).entries[first.url.value] == Entry(second.outcome.text, second.now)
  {
  }
}
