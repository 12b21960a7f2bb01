/**
 The idempotency window: one table row per (tenant, key) holding the hash of the request body and, once
 the handler has answered, its response. Times are seconds. SHA-256 and the JSONB cast stay opaque.
 */
module Idempotency {
  import opened Options

  const DAY := 86_400

  /** Tenant and Idempotency-Key. */
  type Key = (string, string)

  datatype Response = Response(status: int, body: string)

  /** A stored response: its status and the text of its JSONB body. */
  datatype Stored = Stored(status: int, text: string)

  /** `owner` is the request that inserted the row; no statement reads it. */
  datatype Row = Row(hash: string, response: Option<Stored>, expires: int, owner: nat)

  type Table = map<Key, Row>

  /** JSONB normalisation of a text; None if it is not JSON. */
  type Normaliser = string -> Option<string>

  // ---------------------------------------------------------------- the SQL statements

  /** INSERT ... ON CONFLICT DO NOTHING, when there is no conflict. */
  function Insert(t: Table, k: Key, hash: string, now: int, owner: nat): Table {
    t[k := Row(hash, None, now + DAY, owner)]
  }

  /** The body column: an empty body is stored as JSON null; a body that is not JSON fails the statement. */
  function BodyColumn(body: string, norm: Normaliser): Option<string> {
    if body == "" then Some("null") else norm(body)
  }

  /** UPDATE of the response; without such a row, or with a body that does not cast, nothing changes. */
  function Complete(t: Table, k: Key, r: Response, norm: Normaliser): Table {
    var text := BodyColumn(r.body, norm);
    if k in t && text.Some? then t[k := t[k].(response := Some(Stored(r.status, text.value)))] else t
  }

  function Sweep(t: Table, now: int): Table {
    map k | k in t && t[k].expires >= now :: t[k]
  }

  /** A row lives for a day: sweeps up to 86,400 seconds after its INSERT keep it, and later ones delete it. */
  lemma RowLivesADay(t: Table, k: Key, hash: string, now: int, owner: nat, later: int)
    ensures k in Sweep(Insert(t, k, hash, now, owner), later) <==> later <= now + 86_400
    ensures forall k' :: k' != k ==> (k' in Insert(t, k, hash, now, owner) <==> k' in t)
  {
  }

  // ---------------------------------------------------------------- the repository

  /** What BeginRequest found in a row that was there. */
  datatype Hit = Seen(hashMatch: bool, status: int, body: string)

  /** How a stored row is reported: status 0 while there is no response, and JSON null as no body. */
  function Report(row: Row, hash: string): Hit {
    match row.response
    case None => Seen(row.hash == hash, 0, "")
    case Some(r) => Seen(row.hash == hash, r.status, if r.text == "null" then "" else r.text)
  }

  /** The repository, one statement a method; other requests and the sweeper act between any two. */
  class IdempotencyRepo {
    var rows: Table
    const norm: Normaliser

    constructor (norm: Normaliser)
      ensures rows == map[] && this.norm == norm
    {
      this.norm := norm;
      rows := map[];
    }

    /** BeginRequest's INSERT: whether it returned a row. */
    method TryInsert(k: Key, hash: string, now: int, owner: nat) returns (inserted: bool)
      modifies this`rows
      ensures inserted <==> k !in old(rows)
      ensures rows == if inserted then Insert(old(rows), k, hash, now, owner) else old(rows)
    {
      inserted := k !in rows;
      if inserted {
        rows := Insert(rows, k, hash, now, owner);
      }
    }

    /** BeginRequest's SELECT, after an INSERT that conflicted; None if the row has gone meanwhile. */
    method Find(k: Key, hash: string) returns (hit: Option<Hit>)
      ensures hit == if k in rows then Some(Report(rows[k], hash)) else None
    {
      if k !in rows {
        return None;
      }
      var row := rows[k];
      var status, body := 0, "null";
      if row.response.Some? {
        status, body := row.response.value.status, row.response.value.text;
      }
      return Some(Seen(row.hash == hash, status, if body != "null" then body else ""));
    }

    method CompleteRequest(k: Key, r: Response) returns (ok: bool)
      modifies this`rows
      ensures rows == Complete(old(rows), k, r, norm)
      ensures ok <==> BodyColumn(r.body, norm).Some?
    {
      var text := BodyColumn(r.body, norm);
      if text.None? {
        return false;
      }
      if k in rows {
        rows := rows[k := rows[k].(response := Some(Stored(r.status, text.value)))];
      }
      return true;
    }

    method SweepExpired(now: int)
      modifies this`rows
      ensures rows == Sweep(old(rows), now)
      ensures forall k :: k in rows <==> k in old(rows) && old(rows)[k].expires >= now
    {
      rows := Sweep(rows, now);
    }
  }

  /** While its row lives, the answer to a repeated request is the handler's: same status, normalised body. */
  lemma ReportAfterComplete(t: Table, k: Key, r: Response, norm: Normaliser, hash: string)
    requires k in t && BodyColumn(r.body, norm).Some? && r.status != 0
    ensures var hit := Report(Complete(t, k, r, norm)[k], hash);
            && (hit.hashMatch <==> hash == t[k].hash)
            && hit.status == r.status
            && (hit.body == "" <==> BodyColumn(r.body, norm).value in {"", "null"})
            && (hit.body != "" ==> Some(hit.body) == norm(r.body))
  {
  }

  // ---------------------------------------------------------------- capturing the response

  /** What the client has been sent. The server sends the first status it is given and ignores others. */
  class ClientWriter {
    var sent: Option<int>
    var out: string

    constructor ()
      ensures sent == None && out == ""
    {
      sent, out := None, "";
    }

    method WriteHeader(status: int)
      modifies this`sent
      ensures sent == if old(sent).Some? then old(sent) else Some(status)
    {
      if sent.None? {
        sent := Some(status);
      }
    }

    method Write(p: string)
      modifies this
      ensures sent == Some(old(sent).GetOr(200)) && out == old(out) + p
    {
      sent := Some(sent.GetOr(200));
      out := out + p;
    }

    method Respond(status: int, body: string)
      requires sent == None && out == ""
      modifies this
      ensures sent == Some(status) && out == body
    {
      WriteHeader(status);
      Write(body);
    }
  }

  class CapturingWriter {
    const client: ClientWriter
    var status: int
    var body: string
    var wrote: bool

    /** The captured response is the one the client got, or will get by default. */
    ghost predicate Faithful()
      reads this, client
    {
      && body == client.out
      && status == client.sent.GetOr(200)
      && (wrote <==> client.sent.Some?)
    }

    constructor (client: ClientWriter)
      requires client.sent == None && client.out == ""
      ensures Faithful() && this.client == client && status == 200 && body == ""
    {
      this.client := client;
      status, body, wrote := 200, "", false;
    }

    /** Faithful afterwards exactly if it is the first call, or repeats the status already sent. */
    method WriteHeader(s: int)
      requires Faithful()
      modifies this, client`sent
      ensures status == s && wrote && body == old(body)
      ensures client.sent == Some(old(client.sent).GetOr(s))
      ensures Faithful() <==> old(client.sent).None? || old(client.sent) == Some(s)
    {
      status := s;
      wrote := true;
      client.WriteHeader(s);
    }

    method Write(p: string)
      requires Faithful()
      modifies this, client
      ensures Faithful() && wrote && status == old(status) && body == old(body) + p
    {
      if !wrote {
        WriteHeader(200);
      }
      body := body + p;
      client.Write(p);
    }

    /** A handler's answer, captured as it goes out. */
    method Respond(s: int, p: string)
      requires Faithful() && client.sent == None && body == ""
      modifies this, client
      ensures status == s && body == p && client.sent == Some(s) && client.out == p
    {
      WriteHeader(s);
      Write(p);
    }
  }
}
