/** The dkstate file: magic, schema, two lengths, a JSON envelope of cores, and the payload. */
module StateFrame {
  import opened Options
  import opened BigEndian

  const MAGIC: seq<byte> := [0x64, 0x6B, 0x73, 0x74, 0x61, 0x74, 0x65, 0x0A]
  const SCHEMA_AT := 8
  const ENV_LEN_AT := 12
  const PAY_LEN_AT := 20
  const HEADER := 28

  /** The JSON library: what marshals unmarshals to the same cores. */
  datatype Json<!Core(!new)> = Json(marshal: seq<Core> -> Option<seq<byte>>, unmarshal: seq<byte> -> Option<seq<Core>>) {
    ghost predicate RoundTrips() {
      forall cores :: marshal(cores).Some? ==> unmarshal(marshal(cores).value) == Some(cores)
    }
  }

  /** The cores and the payload are each found or not. */
  datatype Scanned<Core> = Scanned(schema: int, cores: Option<seq<Core>>, payload: Option<seq<byte>>)

  ghost predicate Word(n: int) { 0 <= n < Pow256(8) }

  function Header(schema: int, envLen: int, payLen: int): (h: seq<byte>)
    ensures |h| == HEADER
  {
    MAGIC + Put(schema, 4) + Put(envLen, 8) + Put(payLen, 8)
  }

  function Framed(schema: int, env: seq<byte>, payload: seq<byte>): seq<byte> {
    Header(schema, |env|, |payload|) + env + payload
  }

  /** Copies bytes into a buffer in place. */
  method Copy(a: array<byte>, at: nat, bytes: seq<byte>)
    requires at + |bytes| <= a.Length
    modifies a
    ensures a[..at + |bytes|] == old(a[..at]) + bytes
  {
    for i := 0 to |bytes|
      invariant a[..at + i] == old(a[..at]) + bytes[..i]
    {
      a[at + i] := bytes[i];
      assert a[..at + i + 1] == a[..at + i] + [bytes[i]];
    }
  }

  method FillHeader(schema: int, envLen: int, payLen: int) returns (h: seq<byte>)
    ensures h == Header(schema, envLen, payLen)
  {
    var raw := new byte[HEADER](_ => 0);
    Copy(raw, 0, MAGIC);
    assert raw[..SCHEMA_AT] == MAGIC;
    Copy(raw, SCHEMA_AT, Put(schema, 4));
    Copy(raw, ENV_LEN_AT, Put(envLen, 8));
    Copy(raw, PAY_LEN_AT, Put(payLen, 8));
    h := raw[..HEADER];
  }

  /** Fills the header in place and appends the envelope and the payload. */
  method Frame<Core(!new)>(json: Json<Core>, schema: int, cores: seq<Core>, payload: seq<byte>) returns (r: Option<seq<byte>>)
    ensures r.Some? <==> json.marshal(cores).Some?
    ensures r.Some? ==> r.value == Framed(schema, json.marshal(cores).value, payload)
  {
    var env := json.marshal(cores);
    if env.None? { return None; }
    var raw := FillHeader(schema, |env.value|, |payload|);
    r := Some(raw + env.value + payload);
  }

  function Scan<Core(!new)>(json: Json<Core>, raw: seq<byte>): Scanned<Core> {
    if |raw| < HEADER || raw[..8] != MAGIC then Scanned(0, None, None)
    else
      var schema := Get(raw[SCHEMA_AT..ENV_LEN_AT]);
      PutGet(raw[ENV_LEN_AT..PAY_LEN_AT]);
      var envLen, payLen := Get(raw[ENV_LEN_AT..PAY_LEN_AT]), Get(raw[PAY_LEN_AT..HEADER]);
      var rest := raw[HEADER..];
      if envLen > |rest| then Scanned(schema, None, None)
      else
        var env := json.unmarshal(rest[..envLen]);
        if env.None? then Scanned(schema, None, None)
        else if payLen != |rest| - envLen then Scanned(schema, env, None)
        else Scanned(schema, env, Some(rest[envLen..]))
  }

  // ----- Round trip, truncation and trailing bytes -----

  lemma HeaderFields(schema: int, envLen: int, payLen: int, rest: seq<byte>)
    requires 0 <= schema < Pow256(4) && Word(envLen) && Word(payLen)
    ensures var raw := Header(schema, envLen, payLen) + rest;
            && raw[..8] == MAGIC && Get(raw[SCHEMA_AT..ENV_LEN_AT]) == schema
            && Get(raw[ENV_LEN_AT..PAY_LEN_AT]) == envLen && Get(raw[PAY_LEN_AT..HEADER]) == payLen && raw[HEADER..] == rest
  {
    Slices(MAGIC, Put(schema, 4), Put(envLen, 8), Put(payLen, 8), rest);
    GetPut(schema, 4);
    GetPut(envLen, 8);
    GetPut(payLen, 8);
  }

  lemma Slices(m: seq<byte>, s: seq<byte>, e: seq<byte>, p: seq<byte>, rest: seq<byte>)
    requires |m| == 8 && |s| == 4 && |e| == 8 && |p| == 8
    ensures var raw := m + s + e + p + rest;
            raw[..8] == m && raw[8..12] == s && raw[12..20] == e && raw[20..28] == p && raw[28..] == rest
  {
  }

  /** Where everything lies in a file: "dkstate" and a line feed, the schema, the two lengths, the
      envelope and the payload. */
  lemma FileLayout(schema: int, env: seq<byte>, payload: seq<byte>)
    ensures var raw := Framed(schema, env, payload);
            && |raw| == 28 + |env| + |payload|
            && raw[..8] == [0x64, 0x6B, 0x73, 0x74, 0x61, 0x74, 0x65, 0x0A]
            && raw[8..12] == Put(schema, 4) && raw[12..20] == Put(|env|, 8) && raw[20..28] == Put(|payload|, 8)
            && raw[28..28 + |env|] == env && raw[28 + |env|..] == payload
  {
    Slices(MAGIC, Put(schema, 4), Put(|env|, 8), Put(|payload|, 8), env + payload);
    assert Framed(schema, env, payload) == Header(schema, |env|, |payload|) + (env + payload);
  }

  /** What a scan makes of a header and whatever follows it: the whole of the cores exactly when the
      envelope is there, and the payload exactly when nothing is missing and nothing is left over. */
  lemma ScanAfterHeader<Core(!new)>(json: Json<Core>, schema: int, cores: seq<Core>, payLen: int, rest: seq<byte>)
    requires json.RoundTrips() && json.marshal(cores).Some?
    requires 0 <= schema < Pow256(4) && Word(|json.marshal(cores).value|) && Word(payLen)
    requires var env := json.marshal(cores).value; |rest| < |env| || rest[..|env|] == env
    ensures var env := json.marshal(cores).value;
            Scan(json, Header(schema, |env|, payLen) + rest) ==
              if |rest| < |env| then Scanned(schema, None, None)
              else Scanned(schema, Some(cores), if |rest| - |env| == payLen then Some(rest[|env|..]) else None)
  {
    HeaderFields(schema, |json.marshal(cores).value|, payLen, rest);
  }

  /** Scanning undoes framing. */
  lemma ScanFrame<Core(!new)>(json: Json<Core>, schema: int, cores: seq<Core>, payload: seq<byte>)
    requires json.RoundTrips() && json.marshal(cores).Some?
    requires 0 <= schema < Pow256(4) && Word(|json.marshal(cores).value|) && Word(|payload|)
    ensures Scan(json, Framed(schema, json.marshal(cores).value, payload)) == Scanned(schema, Some(cores), Some(payload))
  {
    var env := json.marshal(cores).value;
    ScanAfterHeader(json, schema, cores, |payload|, env + payload);
    assert Framed(schema, env, payload) == Header(schema, |env|, |payload|) + (env + payload);
    assert (env + payload)[|env|..] == payload;
  }

  /** A proper prefix never yields a payload, and yields either all the cores or none: all exactly
      when it reaches the end of the envelope. */
  lemma ScanPrefix<Core(!new)>(json: Json<Core>, schema: int, cores: seq<Core>, payload: seq<byte>, k: nat)
    requires json.RoundTrips() && json.marshal(cores).Some?
    requires 0 <= schema < Pow256(4) && Word(|json.marshal(cores).value|) && Word(|payload|)
    requires k < |Framed(schema, json.marshal(cores).value, payload)|
    ensures Scan(json, Framed(schema, json.marshal(cores).value, payload)[..k]) ==
              Scanned(if k < HEADER then 0 else schema,
                      if k < HEADER + |json.marshal(cores).value| then None else Some(cores), None)
  {
    var env := json.marshal(cores).value;
    if k >= HEADER {
      var rest := (env + payload)[..k - HEADER];
      Prefix(Header(schema, |env|, |payload|), env, payload, k);
      ScanAfterHeader(json, schema, cores, |payload|, rest);
    }
  }

  lemma Prefix(h: seq<byte>, env: seq<byte>, payload: seq<byte>, k: nat)
    requires |h| == HEADER <= k <= |h + env + payload|
    ensures (h + env + payload)[..k] == h + (env + payload)[..k - HEADER]
    ensures k - HEADER >= |env| ==> (env + payload)[..k - HEADER][..|env|] == env
  {
  }

  /** Neither does a file with anything after it. */
  lemma ScanTrailing<Core(!new)>(json: Json<Core>, schema: int, cores: seq<Core>, payload: seq<byte>, extra: seq<byte>)
    requires json.RoundTrips() && json.marshal(cores).Some? && extra != []
    requires 0 <= schema < Pow256(4) && Word(|json.marshal(cores).value|) && Word(|payload|)
    ensures Scan(json, Framed(schema, json.marshal(cores).value, payload) + extra) == Scanned(schema, Some(cores), None)
  {
    var env := json.marshal(cores).value;
    Trailing(Header(schema, |env|, |payload|), env, payload, extra);
    ScanAfterHeader(json, schema, cores, |payload|, env + payload + extra);
  }

  lemma Trailing(h: seq<byte>, env: seq<byte>, payload: seq<byte>, extra: seq<byte>)
    ensures h + env + payload + extra == h + (env + payload + extra)
    ensures (env + payload + extra)[..|env|] == env
  {
  }

  /** A payload is only ever read from a file that is exactly a frame of it. */
  lemma ScanSound<Core(!new)>(json: Json<Core>, raw: seq<byte>)
    requires Scan(json, raw).payload.Some?
    ensures exists env ::
              && json.unmarshal(env) == Scan(json, raw).cores
              && raw == Framed(Scan(json, raw).schema, env, Scan(json, raw).payload.value)
  {
    var s := Scan(json, raw);
    PutGet(raw[SCHEMA_AT..ENV_LEN_AT]);
    PutGet(raw[ENV_LEN_AT..PAY_LEN_AT]);
    PutGet(raw[PAY_LEN_AT..HEADER]);
    var envLen := Get(raw[ENV_LEN_AT..PAY_LEN_AT]);
    var env := raw[HEADER..][..envLen];
    Whole(raw, envLen);
    assert raw == Framed(s.schema, env, s.payload.value);
  }

  lemma Whole(raw: seq<byte>, n: nat)
    requires HEADER + n <= |raw|
    ensures raw == raw[..8] + raw[8..12] + raw[12..20] + raw[20..28] + raw[HEADER..][..n] + raw[HEADER..][n..]
  {
  }
}
