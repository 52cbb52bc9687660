/** What a message does to a subscriber row, said of the JSON it carries and of the row's fields. */
module MarketplaceMeaning {
  import opened Common
  import opened Marketplace
  import opened MarketplaceConsumer

  type Fields = map<string, Json>

  predicate Says(fields: Fields, key: string, value: string) {
    key in fields && fields[key] == Str(value) && value != ""
  }

  /** Absent, empty, or not a text. */
  predicate Silent(fields: Fields, key: string) {
    key in fields && fields[key].Str? ==> fields[key].s == ""
  }

  /** A field two levels down: `license.arn` and the like. */
  predicate SaysIn(detail: Json, outer: string, inner: string, value: string) {
    detail.Obj? && outer in detail.fields && detail.fields[outer].Obj? && Says(detail.fields[outer].fields, inner, value)
  }

  predicate SilentIn(detail: Json, outer: string, inner: string) {
    detail.Obj? && outer in detail.fields && detail.fields[outer].Obj? ==> Silent(detail.fields[outer].fields, inner)
  }

  predicate Identified(fields: Fields, key: string, sqsId: string, id: string) {
    if Silent(fields, key) then id == sqsId else Says(fields, key, id)
  }

  predicate Stamped(fields: Fields, key: string, stamp: Option<int>, at: Option<int>) {
    at == if Silent(fields, key) then None else stamp
  }

  /** A subscription notification, in its envelope or raw, with this payload, id and time. */
  predicate Notifies(m: Message, payload: Fields, id: string, at: Option<int>) {
    && m.body.Some? && m.body.value.Obj?
    && var body := m.body.value.fields;
       if Says(body, "Type", "Notification") && "Message" in body then
         m.inner == Some(Obj(payload)) && Identified(body, "MessageId", m.sqsId, id) && Stamped(body, "Timestamp", m.stamp, at)
       else
         !("detail-type" in body && "detail" in body) && "action" in body && body == payload && id == m.sqsId && at.None?
  }

  /** An event delivered straight to the queue, with this detail, id and time. */
  predicate Announces(m: Message, body: Fields, id: string, at: Option<int>) {
    && m.body == Some(Obj(body)) && !(Says(body, "Type", "Notification") && "Message" in body)
    && "detail-type" in body && "detail" in body
    && Identified(body, "id", m.sqsId, id) && Stamped(body, "time", m.stamp, at)
  }

  /** A row never touched, or touched by something older, takes the status and the time; any other stays. */
  predicate Takes(before: Subscriber, after: Subscriber, status: Status, at: Option<int>) {
    if before.updatedAt.None? || (at.Some? && before.updatedAt.value < at.value)
    then after == before.(status := status, updatedAt := at) else after == before
  }

  // ----- reading the fields -----

  lemma TextSays(fields: Fields, key: string)
    ensures forall value :: Says(fields, key, value) <==> Text(Obj(fields), key) == Some(value)
    ensures Silent(fields, key) <==> Text(Obj(fields), key).None?
  {
  }

  lemma DigSays(detail: Json, outer: string, inner: string)
    ensures forall value :: SaysIn(detail, outer, inner, value) <==> Dig(detail, outer, inner) == Some(value)
    ensures SilentIn(detail, outer, inner) <==> Dig(detail, outer, inner).None?
  {
  }

  // ----- subscription notifications -----

  lemma NotifiesMeans(m: Message, payload: Fields, id: string, at: Option<int>)
    requires Notifies(m, payload, id, at)
    ensures var p := Obj(payload);
            ParseEnvelope(m) == Parsed(Sns(id, Text(p, "action"), Text(p, "customer-identifier"), Text(p, "product-code"), at))
  {
    var body := m.body.value.fields;
    TextSays(body, "Type");
    TextSays(body, "MessageId");
    TextSays(body, "Timestamp");
    hide Text;
  }

  /** What a new event does to the rows and to the ledger. */
  lemma CommitMeans(db: Db, m: Message, e: Event, i: nat)
    requires ParseEnvelope(m) == Parsed(e) && !e.Unknown? && e.id !in db.ledger && i < |db.rows|
    ensures var after := Handled(db, m);
            |after.rows| == |db.rows| && after.rows[i] == ApplyRow(db.rows[i], e) && after.ledger.Keys == db.ledger.Keys + {e.id}
  {
    hide ParseEnvelope, ApplyRow, MatchCount;
  }

  /**
   What a subscription notification does to a row: one of four actions with the row's customer and
   product sets the status named here, and everything else leaves the row alone.
   */
  lemma NotificationMeans(db: Db, m: Message, payload: Fields, id: string, at: Option<int>, i: nat)
    requires Notifies(m, payload, id, at) && id !in db.ledger && i < |db.rows|
    ensures var before, after := db.rows[i], Handled(db, m).rows;
            && |after| == |db.rows|
            && var mine := before.customer.Some? && Says(payload, "customer-identifier", before.customer.value)
                           && Says(payload, "product-code", before.product);
               && (mine && Says(payload, "action", "subscribe-success") ==> Takes(before, after[i], Active, at))
               && (mine && Says(payload, "action", "subscribe-fail") ==> Takes(before, after[i], Failed, at))
               && (mine && Says(payload, "action", "unsubscribe-pending") ==> Takes(before, after[i], Cancelling, at))
               && (mine && Says(payload, "action", "unsubscribe-success") ==> Takes(before, after[i], Cancelled, at))
               && (!mine || (!Says(payload, "action", "subscribe-success") && !Says(payload, "action", "subscribe-fail")
                             && !Says(payload, "action", "unsubscribe-pending") && !Says(payload, "action", "unsubscribe-success"))
                   ==> after[i] == before)
    ensures Handling(db, m) == MayDelete && Handled(db, m).ledger.Keys == db.ledger.Keys + {id}
  {
    NotifiesMeans(m, payload, id, at);
    var e := ParseEnvelope(m).event;
    CommitMeans(db, m, e, i);
    TextSays(payload, "action");
    TextSays(payload, "customer-identifier");
    TextSays(payload, "product-code");
    hide ParseEnvelope, Text, Says, Silent, Handled;
  }

  // ----- agreement and licence events -----

  /** The part of an ARN behind its last colon, or the whole of it. */
  ghost predicate Ends(arn: string, tail: string) {
    (forall i :: 0 <= i < |tail| ==> tail[i] != ':')
    && (arn == tail || exists front :: arn == front + ":" + tail)
  }

  lemma {:induction false} TailOfPlain(front: string, tail: string)
    requires (forall i :: 0 <= i < |tail| ==> tail[i] != ':') && (front == "" || front[|front| - 1] == ':')
    ensures Tail(front + tail) == tail
    decreases tail
  {
    var arn := front + tail;
    if tail != "" {
      var n := |tail| - 1;
      assert arn[|arn| - 1] == tail[n] && arn[..|arn| - 1] == front + tail[..n];
      TailOfPlain(front, tail[..n]);
      assert tail[..n] + [tail[n]] == tail;
    } else {
      assert arn == front;
    }
  }

  lemma TailMeans(arn: string, tail: string)
    requires Ends(arn, tail)
    ensures Tail(arn) == tail
  {
    if arn == tail {
      assert "" + tail == arn;
      TailOfPlain("", tail);
    } else {
      var front :| arn == front + ":" + tail;
      TailOfPlain(front + ":", tail);
    }
  }

  lemma EndsWithMeans(s: string, tail: string)
    ensures EndsWith(s, tail) <==> exists front :: s == front + tail
  {
    if EndsWith(s, tail) {
      assert s == s[..|s| - |tail|] + tail;
    }
  }

  /** The licence of the row is the one the event names: their ARNs end alike. */
  ghost predicate SameLicence(row: Subscriber, detail: Json, tail: string) {
    && row.arn.Some? && (exists arn :: SaysIn(detail, "license", "arn", arn) && Ends(arn, tail))
    && exists front :: row.arn.value == front + tail
  }

  /** The event names the row's buyer and, if it names a product, the row's. */
  predicate SameBuyer(row: Subscriber, detail: Json) {
    SaysIn(detail, "acceptor", "accountId", row.account)
  }

  predicate SameProduct(row: Subscriber, detail: Json) {
    SilentIn(detail, "product", "code") || SaysIn(detail, "product", "code", row.product)
  }

  /** The row once a licence event has written its agreement onto it. */
  ghost predicate Bridged(row: Subscriber, detail: Json, tail: string, bridged: Subscriber) {
    if row.agreement.None? && SameBuyer(row, detail) && SameLicence(row, detail, tail) && tail != ""
       && !SilentIn(detail, "agreement", "id")
    then bridged.agreement.Some? && SaysIn(detail, "agreement", "id", bridged.agreement.value)
         && bridged == row.(agreement := bridged.agreement)
    else bridged == row
  }

  lemma AnnouncesMeans(m: Message, body: Fields, id: string, at: Option<int>)
    requires Announces(m, body, id, at)
    ensures var detail := body["detail"];
            ParseEnvelope(m) == Parsed(Eb(id, Text(Obj(body), "detail-type"), at, Dig(detail, "agreement", "id"),
                                          Dig(detail, "license", "arn"), Dig(detail, "acceptor", "accountId"),
                                          Dig(detail, "product", "code")))
  {
    TextSays(body, "Type");
    TextSays(body, "id");
    TextSays(body, "time");
    hide Text, Dig;
  }

  /** The four names and what each makes of a row. */
  predicate Names(name: string, status: Status) {
    || (name == "License Updated" && status == Active)
    || (name == "License Deprovisioned" && status == Cancelled)
    || (name == "Purchase Agreement Ended" && status == Cancelled)
    || (name == "Purchase Agreement Created" && status == Pending)
  }

  lemma NamesAre(name: string, status: Status, role: string)
    requires Names(name, status)
    ensures EventStatus(Some(name + " - " + role)) == Some(status) == EventStatus(Some(name))
  {
    StatusNames(role);
    RoleIsIgnored(name, role);
  }

  /** How the model's own words for a match read in the fields; `tail` is the end of the ARN named, if one is. */
  lemma MatchMeans(row: Subscriber, e: Event, detail: Json, tail: string)
    requires e.Eb? && Verdict(e).Some?
    requires e.agreement == Dig(detail, "agreement", "id") && e.arn == Dig(detail, "license", "arn")
    requires e.acceptor == Dig(detail, "acceptor", "accountId") && e.product == Dig(detail, "product", "code")
    requires SilentIn(detail, "license", "arn") || exists arn :: SaysIn(detail, "license", "arn", arn) && Ends(arn, tail)
    ensures Bridged(row, detail, tail, Stamp(row, e))
    ensures Matches(row, e) <==>
              SameBuyer(row, detail) && SameProduct(row, detail)
              && ((row.agreement.Some? && SaysIn(detail, "agreement", "id", row.agreement.value)) || SameLicence(row, detail, tail))
  {
    DigSays(detail, "agreement", "id");
    DigSays(detail, "license", "arn");
    DigSays(detail, "acceptor", "accountId");
    DigSays(detail, "product", "code");
    if row.arn.Some? {
      EndsWithMeans(row.arn.value, tail);
    }
    if arn :| SaysIn(detail, "license", "arn", arn) && Ends(arn, tail) {
      TailMeans(arn, tail);
      assert e.arn == Some(arn);
    }
    hide Dig, SaysIn, SilentIn, Ends, Tail, Verdict, EndsWith;
  }

  /**
   What an agreement or licence event does to a row. It must name the row's buyer, not another
   product, and either the agreement the row carries by then or the row's licence; then the status
   its name stands for is taken. A licence event first writes its agreement onto a row without one.
   */
  lemma AnnouncementMeans(db: Db, m: Message, body: Fields, id: string, at: Option<int>, i: nat,
                          name: string, role: string, status: Status, tail: string) returns (bridged: Subscriber)
    requires Announces(m, body, id, at) && id !in db.ledger && i < |db.rows|
    requires Names(name, status) && (Says(body, "detail-type", name) || Says(body, "detail-type", name + " - " + role))
    requires SilentIn(body["detail"], "license", "arn") || exists arn :: SaysIn(body["detail"], "license", "arn", arn) && Ends(arn, tail)
    ensures var before, after, detail := db.rows[i], Handled(db, m).rows, body["detail"];
            && |after| == |db.rows| && Bridged(before, detail, tail, bridged)
            && (if SameBuyer(before, detail) && SameProduct(before, detail)
                   && ((bridged.agreement.Some? && SaysIn(detail, "agreement", "id", bridged.agreement.value))
                       || SameLicence(before, detail, tail))
                then Takes(bridged, after[i], status, at)
                else after[i] == bridged)
    ensures Handling(db, m) == MayDelete && Handled(db, m).ledger.Keys == db.ledger.Keys + {id}
  {
    AnnouncesMeans(m, body, id, at);
    var e, before, detail := ParseEnvelope(m).event, db.rows[i], body["detail"];
    CommitMeans(db, m, e, i);
    TextSays(body, "detail-type");
    NamesAre(name, status, role);
    DigSays(detail, "acceptor", "accountId");
    bridged := Stamp(before, e);
    hide ParseEnvelope, Text, Dig, Says, EventStatus, Handled, Commit;
    if SaysIn(detail, "acceptor", "accountId", before.account) {
      MatchMeans(before, e, detail, tail);
      MatchMeans(bridged, e, detail, tail);
    } else {
      assert Some(before.account) != e.acceptor;
    }
  }

  /** An event without a name, with a name outside the four, or without a buyer moves no row and stamps none. */
  lemma OtherAnnouncements(db: Db, m: Message, body: Fields, id: string, at: Option<int>, i: nat, name: string, role: string)
    requires Announces(m, body, id, at) && id !in db.ledger && i < |db.rows|
    requires || Silent(body, "detail-type") || SilentIn(body["detail"], "acceptor", "accountId")
             || (Plain(name) && (forall status :: !Names(name, status))
                 && (Says(body, "detail-type", name) || Says(body, "detail-type", name + " - " + role)))
    ensures Handled(db, m).rows[i] == db.rows[i] && Handling(db, m) == MayDelete
  {
    AnnouncesMeans(m, body, id, at);
    var e := ParseEnvelope(m).event;
    CommitMeans(db, m, e, i);
    TextSays(body, "detail-type");
    DigSays(body["detail"], "acceptor", "accountId");
    if Plain(name) && forall status :: !Names(name, status) {
      assert !Names(name, Active) && !Names(name, Cancelled) && !Names(name, Pending);
      RoleIsIgnored(name, role);
    }
    hide ParseEnvelope, Text, Dig, Says, EventStatus, Handled, Commit;
  }

  /** A message whose event is already in the ledger changes nothing. */
  lemma RepeatChangesNothing(db: Db, m: Message, e: Event)
    requires ParseEnvelope(m) == Parsed(e) && e.id in db.ledger
    ensures Handled(db, m) == db && Handling(db, m) == MayDelete
  {
    hide ParseEnvelope;
  }
}
