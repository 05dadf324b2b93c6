/**
 Sending a message with a transaction, and the bodies of its first and later publishes
 (rabbitmq/rabbitmq.go, orm/gorm.go, util/ustring/string.go).
 */
module OutboxSend {
  import opened Common
  import opened OutboxTable
  import opened Paging
  import opened StringOrder

  // ---------------------------------------------------------------------------------------
  // JSON values and bodies
  // ---------------------------------------------------------------------------------------

  /** `mantissa * 10^exponent`. */
  datatype Number = Number(mantissa: int, exponent: int)

  datatype Field = Field(key: string, val: Tree)

  datatype Tree =
    | JNull
    | JBool(b: bool)
    | JNumber(n: Number)
    | JString(s: string)
    | JArray(items: seq<Tree>)
    | JObject(fields: seq<Field>)

  /** Without trailing zeros, and zero with exponent 0. */
  predicate Reduced(n: Number) {
    if n.mantissa == 0 then n.exponent == 0 else n.mantissa % 10 != 0
  }

  /** The order of an object's fields means nothing, so one order stands for all: by key, each key once. */
  predicate Canonical(v: Tree) {
    match v
    case JNumber(n) => Reduced(n)
    case JArray(items) => forall i :: 0 <= i < |items| ==> Canonical(items[i])
    case JObject(fields) =>
      && (forall i, j :: 0 <= i < j < |fields| ==> Less(fields[i].key, fields[j].key))
      && (forall i :: 0 <= i < |fields| ==> Canonical(fields[i].val))
    case _ => true
  }

  /** JSON values (section 3 of RFC 8259), each represented in one way; numbers are exact. */
  type Json = v: Tree | Canonical(v) witness JNull

  /** The JSON library: `write` is Marshal on values, `parse` is Unmarshal of a whole text. */
  datatype Codec = Codec(write: Json -> string, parse: string -> Option<Json>)

  /**
   What is taken of the library: parsing undoes writing, and the text of a JSON string is
   longer than the string, by its quotes (section 7 of RFC 8259).
   */
  ghost predicate Faithful(c: Codec) {
    && (forall v :: c.parse(c.write(v)) == Some(v))
    && (forall t :: c.parse(t).Some? && c.parse(t).value.JString? ==> |c.parse(t).value.s| < |t|)
  }

  /** A Go string, a value with a JSON form, or a value Marshal rejects. */
  datatype Payload = GoString(s: string) | Value(v: Json) | Unmarshalable

  datatype Publishing = Publishing(body: string, delay: int)

  function Marshal(c: Codec, p: Payload): Option<string> {
    match p
    case GoString(s) => Some(c.write(JString(s)))
    case Value(v) => Some(c.write(v))
    case Unmarshalable => None
  }

  /** NotifyPublish sends a Go string as it is and marshals everything else. */
  function Body(c: Codec, p: Payload): Option<string> {
    if p.GoString? then Some(p.s) else Marshal(c, p)
  }

  function NotifyPublish(c: Codec, p: Payload): seq<Publishing> {
    var b := Body(c, p);
    if b.Some? then [Publishing(b.value, 0)] else []
  }

  function NotifyPublishDelay(c: Codec, p: Payload, delay: int): seq<Publishing> {
    var b := Body(c, p);
    if delay <= 0 then NotifyPublish(c, p)
    else if b.Some? then [Publishing(b.value, delay)] else []
  }

  /** `IsJson` unmarshals into a map, which takes objects and null only. */
  function IsJson(c: Codec, text: string): bool {
    var v := c.parse(text);
    v.Some? && (v.value.JObject? || v.value.JNull?)
  }

  function RetryPayload(c: Codec, text: string): Payload {
    if IsJson(c, text) then Value(c.parse(text).value) else GoString(text)
  }

  /** The delayed publish of a row does not end its turn: the plain publish follows. */
  function RetryPublishes(c: Codec, row: Row): seq<Publishing> {
    var p := RetryPayload(c, row.body);
    (if row.delayedTime > 0 then NotifyPublishDelay(c, p, row.delayedTime) else []) + NotifyPublish(c, p)
  }

  function RowFor(body: string, now: nat): Row {
    Row(body, now + TRIGGER_DELAY, 0, now, false)
  }

  /** What a reader of JSON sees in a body. */
  function Meaning(c: Codec, ps: seq<Publishing>): seq<Option<Json>> {
    seq(|ps|, i requires 0 <= i < |ps| => c.parse(ps[i].body))
  }

  /** The value a payload stands for. */
  function ValueOf(p: Payload): Json
    requires !p.Unmarshalable?
  {
    if p.Value? then p.v else JString(p.s)
  }

  /** Whatever the payload, a retry sends the value it stands for. */
  lemma RetrySendsTheValue(c: Codec, p: Payload, now: nat)
    requires Faithful(c) && !p.Unmarshalable?
    ensures Meaning(c, RetryPublishes(c, RowFor(Marshal(c, p).value, now))) == [Some(ValueOf(p))]
  {
    var text := Marshal(c, p).value;
    assert c.parse(text) == Some(ValueOf(p));
    var again := Body(c, RetryPayload(c, text)).value;
    assert c.parse(again) == Some(ValueOf(p));
  }

  /**
   A retry sends the same JSON value as the first attempt if and only if the payload is not a
   Go string; for a Go string it sends the quoted text, which no reader takes for the raw one.
   */
  lemma RetrySendsTheSameValue(c: Codec, p: Payload, now: nat, delay: int)
    requires Faithful(c) && !p.Unmarshalable?
    ensures var row := RowFor(Marshal(c, p).value, now);
      Meaning(c, RetryPublishes(c, row)) == Meaning(c, NotifyPublishDelay(c, p, delay)) <==> p.Value?
  {
    RetrySendsTheValue(c, p, now);
    var first := NotifyPublishDelay(c, p, delay);
    assert |first| == 1;
    assert Meaning(c, first)[0] == c.parse(Body(c, p).value);
  }

  // ---------------------------------------------------------------------------------------
  // What is published, byte for byte
  // ---------------------------------------------------------------------------------------

  /** The first attempt: a Go string as it is, everything else as its JSON text, with the delay asked for if any. */
  lemma FirstAttempt(c: Codec, p: Payload, delay: int)
    ensures var d := if delay > 0 then delay else 0;
      NotifyPublishDelay(c, p, delay) ==
        match p
        case GoString(s) => [Publishing(s, d)]
        case Value(v) => [Publishing(c.write(v), d)]
        case Unmarshalable => []
  {
  }

  /** A retry: the text anew if it is that of an object or of null, and else the text as it is stored. */
  lemma RetryAttempt(c: Codec, row: Row)
    ensures var parsed := c.parse(row.body);
      var rewritten := parsed.Some? && (parsed.value.JObject? || parsed.value.JNull?);
      var body := if rewritten then c.write(parsed.value) else row.body;
      RetryPublishes(c, row) ==
        (if row.delayedTime > 0 then [Publishing(body, row.delayedTime)] else []) + [Publishing(body, 0)]
  {
  }

  /** A saved row is due from a minute after it was saved, and has nothing of a delay. */
  lemma DueAfterAMinute(rows: Rows, id: Id, body: string, saved: nat, now: nat)
    requires id in rows && rows[id] == RowFor(body, saved)
    ensures id in Due(rows, now) <==> saved + 60 <= now
    ensures rows[id].body == body && rows[id].delayedTime == 0
  {
  }

  /** A retry forgets the delay: it publishes at once, as the first attempt did, if and only if none was asked for. */
  lemma RetryKeepsTheDelay(c: Codec, p: Payload, now: nat, delay: int)
    requires !p.Unmarshalable?
    ensures var row := RowFor(Marshal(c, p).value, now);
      var first, again := NotifyPublishDelay(c, p, delay), RetryPublishes(c, row);
      |first| == |again| == 1 && (again[0].delay == first[0].delay <==> delay <= 0)
  {
    var row := RowFor(Marshal(c, p).value, now);
    assert Body(c, RetryPayload(c, row.body)).Some?;
  }

  // ---------------------------------------------------------------------------------------
  // SendDelayMessageInTransaction
  // ---------------------------------------------------------------------------------------

  /** The caller's business function: what it writes through the transaction, and whether it fails. */
  datatype Business = NoFn | Fn(writes: seq<nat>, fails: bool)

  function Writes(fn: Business): seq<nat> {
    if fn.Fn? then fn.writes else []
  }

  /** Everything inside the transaction goes through. */
  predicate Goes(c: Codec, fn: Business, messages: seq<Payload>, saves: seq<bool>)
    requires |saves| == |messages|
  {
    && (fn.Fn? ==> !fn.fails)
    && (forall i :: 0 <= i < |messages| ==> !messages[i].Unmarshalable? && saves[i])
  }

  /** The map with `vals[i]` at `ids[i]`, for the first `n` positions. */
  function Paired<T>(ids: seq<Id>, vals: seq<T>, n: nat): (m: map<Id, T>)
    requires n <= |ids| == |vals|
  {
    if n == 0 then map[] else Paired(ids, vals, n - 1)[ids[n - 1] := vals[n - 1]]
  }

  lemma {:induction false} PairedContents<T>(ids: seq<Id>, vals: seq<T>, n: nat)
    requires n <= |ids| == |vals| && Distinct(ids)
    ensures Paired(ids, vals, n).Keys == Elements(ids[..n])
    ensures forall i :: 0 <= i < n ==> Paired(ids, vals, n)[ids[i]] == vals[i]
  {
    if n > 0 {
      PairedContents(ids, vals, n - 1);
      assert ids[..n] == ids[..n - 1] + [ids[n - 1]];
      assert Elements(ids[..n]) == Elements(ids[..n - 1]) + {ids[n - 1]};
      assert ids[n - 1] !in ids[..n - 1];
    }
  }

  /** The rows that saving these messages adds, in order. */
  function RowsFor(c: Codec, messages: seq<Payload>, now: nat): seq<Row> {
    seq(|messages|, i requires 0 <= i < |messages| =>
      var text := Marshal(c, messages[i]); RowFor(if text.Some? then text.value else "", now))
  }

  /** The function handed to the transaction: business work, then one row per message. */
  method SaveAll(tx: Connection, c: Codec, fn: Business, messages: seq<Payload>, ids: seq<Id>,
                 saves: seq<bool>, now: nat)
    returns (err: bool, messageMap: map<Id, Payload>)
    requires |saves| == |ids| == |messages|
    requires tx.rows == map[] && tx.work == []
    modifies tx
    ensures !err <==> Goes(c, fn, messages, saves)
    ensures !err ==> tx.work == Writes(fn) && tx.rows == Paired(ids, RowsFor(c, messages, now), |ids|)
    ensures !err ==> messageMap == Paired(ids, messages, |ids|)
  {
    messageMap := map[];
    err := true;
    if fn.Fn? {
      tx.work := tx.work + fn.writes;
      if fn.fails {
        return;
      }
    }
    for i := 0 to |messages|
      invariant tx.work == Writes(fn)
      invariant forall j :: 0 <= j < i ==> !messages[j].Unmarshalable? && saves[j]
      invariant tx.rows == Paired(ids, RowsFor(c, messages, now), i)
      invariant messageMap == Paired(ids, messages, i)
    {
      var marshal := Marshal(c, messages[i]);
      if marshal.None? {
        return;
      }
      var failed := tx.Save(ids[i], RowFor(marshal.value, now), saves[i]);
      if failed {
        return;
      }
      messageMap := messageMap[ids[i] := messages[i]];
    }
    err := false;
  }

  /** A row as it is saved at `now`: the message's JSON text, due in a minute, created now, without a delay. */
  predicate SavedAs(row: Row, c: Codec, p: Payload, now: nat) {
    && (match p
        case GoString(s) => row.body == c.write(JString(s))
        case Value(v) => row.body == c.write(v)
        case Unmarshalable => false)
    && row.createdAt == now && row.triggerTime == now + 60 && row.delayedTime == 0 && !row.deleted
  }

  lemma SavedRows(c: Codec, messages: seq<Payload>, ids: seq<Id>, now: nat)
    requires |ids| == |messages| && Distinct(ids) && forall i :: 0 <= i < |messages| ==> !messages[i].Unmarshalable?
    ensures var rows, m := Paired(ids, RowsFor(c, messages, now), |ids|), Paired(ids, messages, |ids|);
      && rows.Keys == m.Keys == Elements(ids)
      && (forall i :: 0 <= i < |ids| ==> SavedAs(rows[ids[i]], c, messages[i], now) && m[ids[i]] == messages[i])
  {
    PairedContents(ids, RowsFor(c, messages, now), |ids|);
    PairedContents(ids, messages, |ids|);
    assert ids[..|ids|] == ids;
  }

  /** A purge leaves the rows of a send at `now` if and only if it comes within seven days of it. */
  lemma KeptSevenDays(c: Codec, messages: seq<Payload>, ids: seq<Id>, before: Rows, now: nat, later: nat, i: nat)
    requires |ids| == |messages| && Distinct(ids) && forall j :: 0 <= j < |messages| ==> !messages[j].Unmarshalable?
    requires i < |ids| && now <= later
    ensures var rows := before + Paired(ids, RowsFor(c, messages, now), |ids|);
      && (ids[i] in Purged(rows, later - KEEP) <==> later <= now + 604_800)
      && (later <= now + 604_800 ==> Purged(rows, later - KEEP)[ids[i]] == rows[ids[i]])
  {
    SavedRows(c, messages, ids, now);
  }

  /** The publisher: each message of the map once, under its id, with the delay asked for. */
  method NotifyAll(c: Codec, messageMap: map<Id, Payload>, delay: int) returns (sent: map<Id, seq<Publishing>>)
    ensures sent.Keys == messageMap.Keys
    ensures forall id :: id in sent ==> sent[id] == NotifyPublishDelay(c, messageMap[id], delay)
  {
    sent := map[];
    var left := messageMap.Keys;
    while left != {}
      invariant left <= messageMap.Keys && sent.Keys == messageMap.Keys - left
      invariant forall id :: id in sent ==> sent[id] == NotifyPublishDelay(c, messageMap[id], delay)
      decreases left
    {
      var id :| id in left;
      sent := sent[id := NotifyPublishDelay(c, messageMap[id], delay)];
      left := left - {id};
    }
  }

  /**
   Commit and publish agree as far as Commit does. An error leaves the database as it was and
   starts no publisher. Without one the publisher gets exactly the saved ids, one per message;
   the rows and the business work are there if the commit succeeded, and if it did not the call
   still returns no error and still publishes.
   */
  method SendDelayMessageInTransaction(conn: Connection, c: Codec, fn: Business, messages: seq<Payload>,
                                       ids: seq<Id>, saves: seq<bool>, commits: bool, now: nat)
    returns (err: bool, publisher: Option<map<Id, Payload>>)
    requires |saves| == |ids| == |messages|
    modifies conn
    ensures !err <==> Goes(c, fn, messages, saves)
    ensures publisher.Some? <==> !err
    ensures publisher.Some? ==> publisher.value == Paired(ids, messages, |ids|)
    ensures conn.rows ==
      if !err && commits then old(conn.rows) + Paired(ids, RowsFor(c, messages, now), |ids|) else old(conn.rows)
    ensures conn.work == if !err && commits then old(conn.work) + Writes(fn) else old(conn.work)
    // The same outright.
    ensures !err <==>
      (fn.Fn? ==> !fn.fails) && forall i :: 0 <= i < |messages| ==> !messages[i].Unmarshalable? && saves[i]
    ensures err || !commits ==> conn.rows == old(conn.rows) && conn.work == old(conn.work)
    ensures !err && commits ==> conn.work == old(conn.work) + if fn.Fn? then fn.writes else []
    ensures !err && Distinct(ids) ==>
      publisher.value.Keys == Elements(ids) && forall i :: 0 <= i < |ids| ==> publisher.value[ids[i]] == messages[i]
    ensures !err && commits && Distinct(ids) ==>
      && conn.rows.Keys == old(conn.rows).Keys + Elements(ids)
      && (forall i :: 0 <= i < |ids| ==> SavedAs(conn.rows[ids[i]], c, messages[i], now))
      && (forall id :: id in old(conn.rows) && id !in ids ==> conn.rows[id] == old(conn.rows)[id])
  {
    var tx := conn.Begin();
    var failed, messageMap := SaveAll(tx, c, fn, messages, ids, saves, now);
    if failed {
      tx.Rollback();
      return true, None;
    }
    tx.Commit(commits);
    if Distinct(ids) {
      SavedRows(c, messages, ids, now);
    }
    return false, Some(messageMap);
  }

  /** The publisher then has one entry per message, each under its own id. */
  lemma OneEntryPerMessage(messages: seq<Payload>, ids: seq<Id>)
    requires |ids| == |messages| && Distinct(ids)
    ensures var m := Paired(ids, messages, |ids|);
      |m| == |messages| && m.Keys == Elements(ids) && forall i :: 0 <= i < |ids| ==> m[ids[i]] == messages[i]
  {
    PairedContents(ids, messages, |ids|);
    assert ids[..|ids|] == ids;
    ElementsOfDistinct(ids);
    assert |Paired(ids, messages, |ids|)| == |Paired(ids, messages, |ids|).Keys|;
  }
}
