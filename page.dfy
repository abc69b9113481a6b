/** The request composer page (`HttpRequestViewer`): an editable list of header pairs,
    the JSON payload it posts to the relay endpoint, the envelope it shows when the
    send fails, and the colour of the status badge. */
module Page {
  import opened JsValues

  /** One editable row of the header list; blanks and duplicates are allowed. */
  datatype HeaderPair = HeaderPair(key: string, value: string)

  /** Which input of a row changed: `"key" | "value"`. */
  datatype PairField = Key | Value

  /** The methods offered by the method selector. */
  const Methods: set<string> := {"GET", "POST", "PUT", "DELETE", "PATCH", "HEAD", "OPTIONS"}

  const InitialUrl := "http://mercotrace.hirameki.me:8000/containers/"
  const InitialHeaders := [HeaderPair("Content-Type", "application/json")]
  const ErrorStatusText := "Error"
  const UnknownClientError := "Unknown error occurred"

  /** The JSON object posted to the relay; an `undefined` body is left out by `JSON.stringify`. */
  datatype Payload = Payload(url: string, httpMethod: string, headers: map<string, string>, body: Option<string>)

  /** The fields the page reads from the relay's JSON reply; each is `undefined` when
      the reply does not carry it. */
  datatype ReplyData = ReplyData(
    status: Option<int>,
    statusText: Option<string>,
    headers: Option<map<string, string>>,
    body: Option<string>)

  /** What `fetch("/api/proxy")` followed by `res.json()` produced. */
  datatype SendOutcome = Received(data: ReplyData) | SendFailed(thrown: Thrown)

  /** The response state the page renders. */
  datatype Shown = Shown(
    status: Option<int>,
    statusText: Option<string>,
    headers: Option<map<string, string>>,
    body: Option<string>,
    time: int,
    size: int)

  // ---------------------------------------------------------------------------
  // The header list

  /** `Array.prototype.splice(start, 1)` on a copy: a negative start counts back from
      the end (clamped at 0), a start at or past the end removes nothing. */
  function SpliceOne<T>(s: seq<T>, start: int): (r: seq<T>)
    ensures 0 <= start < |s| ==> |r| == |s| - 1 && r[..start] == s[..start] && r[start..] == s[start + 1..]
    ensures -|s| <= start < 0 ==> |r| == |s| - 1 && r[..|s| + start] == s[..|s| + start] && r[|s| + start..] == s[|s| + start + 1..]
    ensures start < -|s| && |s| > 0 ==> r == s[1..]
    ensures start >= |s| || s == [] ==> r == s
  {
    var from := if start < 0 then (if |s| + start < 0 then 0 else |s| + start) else (if start > |s| then |s| else start);
    if from < |s| then s[..from] + s[from + 1..] else s
  }

  /** A row takes part in the request only when both its key and its value are non-empty. */
  predicate IsSent(pair: HeaderPair) {
    pair.key != "" && pair.value != ""
  }

  /** `filter((h) => h.key && h.value)` */
  function SentPairs(rows: seq<HeaderPair>): (kept: seq<HeaderPair>)
    ensures forall i :: 0 <= i < |kept| ==> IsSent(kept[i])
  {
    if rows == [] then []
    else
      var last := rows[|rows| - 1];
      SentPairs(rows[..|rows| - 1]) + (if IsSent(last) then [last] else [])
  }

  /** `map((h) => [h.key, h.value])` */
  function Entries(pairs: seq<HeaderPair>): (entries: seq<(string, string)>)
    ensures |entries| == |pairs|
  {
    seq(|pairs|, i requires 0 <= i < |pairs| => (pairs[i].key, pairs[i].value))
  }

  /** `Object.fromEntries`: entries are defined in order, so a later entry replaces an
      earlier one with the same key. */
  function FromEntries(entries: seq<(string, string)>): map<string, string> {
    if entries == [] then map[]
    else
      var last := entries[|entries| - 1];
      FromEntries(entries[..|entries| - 1])[last.0 := last.1]
  }

  /** The header object of the payload. */
  function SerializeHeaders(rows: seq<HeaderPair>): map<string, string> {
    FromEntries(Entries(SentPairs(rows)))
  }

  /** Appending one row to the list either sets that row's key or changes nothing. */
  lemma SerializeHeadersSnoc(rows: seq<HeaderPair>, pair: HeaderPair)
    ensures SerializeHeaders(rows + [pair]) ==
      if IsSent(pair) then SerializeHeaders(rows)[pair.key := pair.value] else SerializeHeaders(rows)
  {
    assert (rows + [pair])[..|rows|] == rows;
    var kept := SentPairs(rows);
    if IsSent(pair) {
      assert SentPairs(rows + [pair]) == kept + [pair];
      var entries := Entries(kept + [pair]);
      assert entries[..|entries| - 1] == Entries(kept);
    } else {
      assert SentPairs(rows + [pair]) == kept;
    }
  }

  /** A key is in the serialised headers exactly when some row with a non-empty value
      has it, and its value is that of the last such row. */
  lemma {:induction false} SerializedHeaders(rows: seq<HeaderPair>, k: string)
    ensures k in SerializeHeaders(rows) <==>
      exists i :: 0 <= i < |rows| && IsSent(rows[i]) && rows[i].key == k
    ensures k in SerializeHeaders(rows) ==>
      exists i :: 0 <= i < |rows| && IsSent(rows[i]) && rows[i].key == k
        && SerializeHeaders(rows)[k] == rows[i].value
        && forall j :: i < j < |rows| && IsSent(rows[j]) ==> rows[j].key != k
  {
    if rows == [] {
      assert SentPairs(rows) == [];
    } else {
      var init, last := rows[..|rows| - 1], rows[|rows| - 1];
      assert rows == init + [last];
      SerializeHeadersSnoc(init, last);
      SerializedHeaders(init, k);
      if IsSent(last) && last.key == k {
        assert 0 <= |rows| - 1 < |rows| && IsSent(rows[|rows| - 1]) && rows[|rows| - 1].key == k;
      } else {
        if exists i :: 0 <= i < |rows| && IsSent(rows[i]) && rows[i].key == k {
          var i :| 0 <= i < |rows| && IsSent(rows[i]) && rows[i].key == k;
          assert i < |init| && init[i] == rows[i];
        }
        if k in SerializeHeaders(rows) {
          var i :| 0 <= i < |init| && IsSent(init[i]) && init[i].key == k
            && SerializeHeaders(init)[k] == init[i].value
            && forall j :: i < j < |init| && IsSent(init[j]) ==> init[j].key != k;
          assert rows[i] == init[i];
          assert forall j :: i < j < |rows| && IsSent(rows[j]) ==> rows[j].key != k by {
            forall j | i < j < |rows| && IsSent(rows[j])
              ensures rows[j].key != k
            {
              if j < |init| { assert rows[j] == init[j]; }
            }
          }
        }
      }
    }
  }

  // ---------------------------------------------------------------------------
  // Sending

  /** The payload `sendRequest` posts: url and method as they are, the serialised
      headers, and `body || undefined`. */
  function BuildPayload(url: string, httpMethod: string, rows: seq<HeaderPair>, body: string): (p: Payload)
    ensures p.url == url && p.httpMethod == httpMethod
    ensures p.headers == SerializeHeaders(rows)
    ensures p.body.None? <==> body == ""
    ensures p.body.Some? ==> p.body.value == body
  {
    Payload(url, httpMethod, SerializeHeaders(rows), if body != "" then Some(body) else None)
  }

  /** The envelope shown when sending or decoding throws. */
  function ErrorEnvelope(thrown: Thrown): (e: Shown)
    ensures e.status == Some(0) && e.statusText == Some(ErrorStatusText)
    ensures e.headers == Some(map[])
    ensures thrown.ErrorInstance? ==> e.body == Some(thrown.message)
    ensures thrown.OtherValue? ==> e.body == Some(UnknownClientError)
    ensures e.time == 0 && e.size == 0
  {
    Shown(Some(0), Some(ErrorStatusText), Some(map[]), Some(MessageOr(thrown, UnknownClientError)), 0, 0)
  }

  /** The envelope shown for a decoded reply, with the measured time and size. */
  function ReceivedEnvelope(data: ReplyData, time: int, size: int): Shown {
    Shown(data.status, data.statusText, data.headers, data.body, time, size)
  }

  /** The badge is drawn as a success exactly for a 2xx status: section 15 of RFC 9110
      puts the successful class at the hundreds digit 2. An `undefined` status fails
      both comparisons and is drawn as a failure. */
  function IsSuccessBadge(status: Option<int>): (b: bool)
    ensures b <==> status.Some? && status.value / 100 == 2
  {
    status.Some? && status.value >= 200 && status.value < 300
  }

  /** The page's state and its event handlers. */
  class HttpRequestViewer {
    var url: string
    var httpMethod: string
    var rows: seq<HeaderPair>
    var body: string
    var loading: bool
    var response: Option<Shown>

    constructor ()
      ensures url == InitialUrl && httpMethod == "GET" && rows == InitialHeaders && body == ""
      ensures !loading && response == None
    {
      url := InitialUrl;
      httpMethod := "GET";
      rows := InitialHeaders;
      body := "";
      loading := false;
      response := None;
    }

    /** `handleAddHeader`: one blank row at the end. */
    method AddHeader()
      modifies this
      ensures |rows| == |old(rows)| + 1
      ensures rows[..|old(rows)|] == old(rows) && rows[|old(rows)|] == HeaderPair("", "")
      ensures url == old(url) && httpMethod == old(httpMethod) && body == old(body)
      ensures loading == old(loading) && response == old(response)
    {
      rows := rows + [HeaderPair("", "")];
    }

    /** `handleHeaderChange`: one field of one row is replaced. */
    method ChangeHeader(index: int, field: PairField, value: string)
      requires 0 <= index < |rows|
      modifies this
      ensures |rows| == |old(rows)|
      ensures field == Key ==> rows[index] == old(rows)[index].(key := value)
      ensures field == Value ==> rows[index] == old(rows)[index].(value := value)
      ensures forall j :: 0 <= j < |rows| && j != index ==> rows[j] == old(rows)[j]
      ensures url == old(url) && httpMethod == old(httpMethod) && body == old(body)
      ensures loading == old(loading) && response == old(response)
    {
      var copy := rows;
      match field {
        case Key => copy := copy[index := copy[index].(key := value)];
        case Value => copy := copy[index := copy[index].(value := value)];
      }
      rows := copy;
    }

    /** `handleRemoveHeader`: splice one row out of a copy of the list. */
    method RemoveHeader(index: int)
      modifies this
      ensures rows == SpliceOne(old(rows), index)
      ensures url == old(url) && httpMethod == old(httpMethod) && body == old(body)
      ensures loading == old(loading) && response == old(response)
    {
      rows := SpliceOne(rows, index);
    }

    /** `sendRequest`: posts the payload and shows what came back, or the error
        envelope when posting or decoding threw. The round-trip time and the size of
        the reply are measured outside the model and given as `time` and `size`. */
    method SendRequest(outcome: SendOutcome, time: int, size: int) returns (posted: Payload)
      modifies this
      ensures posted == BuildPayload(old(url), old(httpMethod), old(rows), old(body))
      ensures outcome.Received? ==> response == Some(ReceivedEnvelope(outcome.data, time, size))
      ensures outcome.SendFailed? ==> response == Some(ErrorEnvelope(outcome.thrown))
      ensures !loading
      ensures url == old(url) && httpMethod == old(httpMethod) && rows == old(rows) && body == old(body)
    {
      loading := true;
      response := None;
      posted := BuildPayload(url, httpMethod, rows, body);
      match outcome {
        case Received(data) => response := Some(ReceivedEnvelope(data, time, size));
        case SendFailed(thrown) => response := Some(ErrorEnvelope(thrown));
      }
      loading := false;
    }
  }
}
