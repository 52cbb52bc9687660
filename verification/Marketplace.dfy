/**
 What one marketplace notification means: how agents/mp_subscription_consumer.py unwraps it
 and how app/aws_marketplace.py applies it to a subscriber row. An absent timestamp is the
 SQL NULL, and every comparison below treats it as the statements do.
 */
module Marketplace {
  import opened Common

  // ----- envelopes -----

  datatype Json = Null | Bool(b: bool) | Num(n: int) | Str(s: string) | Arr(items: seq<Json>) | Obj(fields: map<string, Json>)

  /** A field read as text: absent, empty and non-text values read alike. */
  function Text(j: Json, key: string): Option<string> {
    if j.Obj? && key in j.fields && j.fields[key].Str? && j.fields[key].s != "" then Some(j.fields[key].s) else None
  }

  function Or(a: Option<string>, b: string): string {
    if a.Some? then a.value else b
  }

  function Dig(j: Json, outer: string, inner: string): Option<string> {
    if j.Obj? && outer in j.fields then Text(j.fields[outer], inner) else None
  }

  datatype Event =
    | Sns(id: string, action: Option<string>, customer: Option<string>, product: Option<string>, ts: Option<int>)
    | Eb(id: string, detailType: Option<string>, ts: Option<int>, agreement: Option<string>,
         arn: Option<string>, acceptor: Option<string>, product: Option<string>)
    | Unknown(id: string)

  /** Malformed is the None of `parse_envelope`; a payload that is no object raises. */
  datatype Parsed = Malformed | Raises | Parsed(event: Event)

  /**
   A queue message: the JSON of its body if it is any, the JSON inside the text field `Message`
   if that is any, and what the time field of its envelope reads as.
   */
  datatype Message = Message(sqsId: string, body: Option<Json>, inner: Option<Json>, stamp: Option<int>)

  function StampOf(m: Message, key: string): Option<int>
    requires m.body.Some?
  {
    if Text(m.body.value, key).Some? then m.stamp else None
  }

  function ParseSns(m: Message): Parsed
    requires m.body.Some?
  {
    if m.inner.None? then Malformed
    else if !m.inner.value.Obj? then Raises
    else
      var payload := m.inner.value;
      Parsed(Sns(Or(Text(m.body.value, "MessageId"), m.sqsId), Text(payload, "action"),
                 Text(payload, "customer-identifier"), Text(payload, "product-code"), StampOf(m, "Timestamp")))
  }

  function ParseEventBridge(m: Message): Parsed
    requires m.body.Some? && m.body.value.Obj? && "detail" in m.body.value.fields
  {
    var body, detail := m.body.value, m.body.value.fields["detail"];
    Parsed(Eb(Or(Text(body, "id"), m.sqsId), Text(body, "detail-type"), StampOf(m, "time"),
              Dig(detail, "agreement", "id"), Dig(detail, "license", "arn"),
              Dig(detail, "acceptor", "accountId"), Dig(detail, "product", "code")))
  }

  predicate IsSns(b: Json) {
    Text(b, "Type") == Some("Notification") && b.Obj? && "Message" in b.fields
  }

  predicate IsEventBridge(b: Json) {
    b.Obj? && "detail-type" in b.fields && "detail" in b.fields
  }

  predicate IsRaw(b: Json) {
    b.Obj? && "action" in b.fields
  }

  function ParseEnvelope(m: Message): Parsed {
    if m.body.None? || !m.body.value.Obj? then Malformed
    else
      var b := m.body.value;
      if IsSns(b) then ParseSns(m)
      else if IsEventBridge(b) then ParseEventBridge(m)
      else if IsRaw(b) then
        Parsed(Sns(m.sqsId, Text(b, "action"), Text(b, "customer-identifier"), Text(b, "product-code"), None))
      else Parsed(Unknown(m.sqsId))
  }

  /** A payload says the same wrapped in an envelope or delivered raw, up to its id and its time. */
  lemma WrappedOrRaw(wrapped: Message, raw: Message)
    requires wrapped.body.Some? && IsSns(wrapped.body.value) && wrapped.inner == raw.body
    requires raw.body.Some? && IsRaw(raw.body.value) && !IsSns(raw.body.value) && !IsEventBridge(raw.body.value)
    ensures ParseEnvelope(wrapped).Parsed? && ParseEnvelope(wrapped).event.Sns? && ParseEnvelope(raw).Parsed?
    ensures var e := ParseEnvelope(wrapped).event; ParseEnvelope(raw).event == Sns(raw.sqsId, e.action, e.customer, e.product, None)
  {
    hide Text;
  }

  // ----- status tables -----

  datatype Status = Pending | Active | Cancelling | Cancelled | Failed

  function ActionStatus(action: Option<string>): Option<Status> {
    if action.None? then None
    else if action.value == "subscribe-success" then Some(Active)
    else if action.value == "subscribe-fail" then Some(Failed)
    else if action.value == "unsubscribe-pending" then Some(Cancelling)
    else if action.value == "unsubscribe-success" then Some(Cancelled)
    else None
  }

  /** The part before the first " - ", which names the seller role. */
  function BaseType(s: string): string {
    if s == "" || " - " <= s then "" else [s[0]] + BaseType(s[1..])
  }

  function TrimEnd(s: string): string {
    if s != "" && s[|s| - 1] == ' ' then TrimEnd(s[..|s| - 1]) else s
  }

  function Trim(s: string): string {
    if s != "" && s[0] == ' ' then Trim(s[1..]) else TrimEnd(s)
  }

  function EventStatus(detailType: Option<string>): Option<Status> {
    if detailType.None? then None
    else
      var base := Trim(BaseType(detailType.value));
      if base == "License Updated" then Some(Active)
      else if base == "License Deprovisioned" || base == "Purchase Agreement Ended" then Some(Cancelled)
      else if base == "Purchase Agreement Created" then Some(Pending)
      else None
  }

  // ----- subscriber rows -----

  datatype Subscriber = Subscriber(account: string, customer: Option<string>, product: string, arn: Option<string>,
                                   agreement: Option<string>, status: Status, updatedAt: Option<int>)

  /** The guard of both updates: never touched, or touched by something older. */
  predicate Overwrites(updatedAt: Option<int>, ts: Option<int>) {
    updatedAt.None? || (ts.Some? && updatedAt.value < ts.value)
  }

  function Touch(r: Subscriber, status: Status, ts: Option<int>): Subscriber {
    if Overwrites(r.updatedAt, ts) then r.(status := status, updatedAt := ts) else r
  }

  predicate EndsWith(s: string, tail: string) {
    |tail| <= |s| && s[|s| - |tail|..] == tail
  }

  /** The part of an ARN behind its last colon. */
  function Tail(arn: string): string {
    if arn == "" then "" else if arn[|arn| - 1] == ':' then "" else Tail(arn[..|arn| - 1]) + [arn[|arn| - 1]]
  }

  predicate ArnMatches(r: Subscriber, arn: Option<string>) {
    arn.Some? && r.arn.Some? && EndsWith(r.arn.value, Tail(arn.value))
  }

  function Verdict(e: Event): Option<Status> {
    match e
    case Sns(_, action, customer, _, _) => if customer.None? then None else ActionStatus(action)
    case Eb(_, detailType, _, _, _, acceptor, _) => if acceptor.None? then None else EventStatus(detailType)
    case Unknown(_) => None
  }

  function TimeOf(e: Event): Option<int> {
    if e.Unknown? then None else e.ts
  }

  /** A licence event that writes its agreement onto the row its ARN names, if the row has none yet. */
  predicate Stamps(r: Subscriber, e: Event) {
    && e.Eb? && Verdict(e).Some? && e.agreement.Some? && r.agreement.None? && Some(r.account) == e.acceptor
    && ArnMatches(r, e.arn) && Tail(e.arn.value) != ""
  }

  function Stamp(r: Subscriber, e: Event): Subscriber {
    if Stamps(r, e) then r.(agreement := e.agreement) else r
  }

  predicate Matches(r: Subscriber, e: Event) {
    && Verdict(e).Some?
    && match e
       case Sns(_, _, customer, product, _) => r.customer == customer && Some(r.product) == product
       case Eb(_, _, _, agreement, arn, acceptor, product) =>
         && Some(r.account) == acceptor
         && (product.None? || product == Some(r.product))
         && ((agreement.Some? && r.agreement == agreement) || ArnMatches(r, arn))
       case Unknown(_) => false
  }

  function ApplyRow(r: Subscriber, e: Event): Subscriber {
    var stamped := Stamp(r, e);
    if Matches(stamped, e) then Touch(stamped, Verdict(e).value, TimeOf(e)) else stamped
  }

  function FoldRow(r: Subscriber, events: seq<Event>): Subscriber {
    if events == [] then r else ApplyRow(FoldRow(r, events[..|events| - 1]), events[|events| - 1])
  }

  // ----- what a row ends at -----

  /** The events that found the row when they were committed. */
  function Hits(r: Subscriber, events: seq<Event>): seq<Event> {
    if events == [] then []
    else
      var init, last := events[..|events| - 1], events[|events| - 1];
      if Matches(Stamp(FoldRow(r, init), last), last) then Hits(r, init) + [last] else Hits(r, init)
  }

  /** No timestamp comes before every timestamp. */
  predicate AtMost(a: Option<int>, b: Option<int>) {
    a.None? || (b.Some? && a.value <= b.value)
  }

  ghost predicate FirstAt(hits: seq<Event>, k: int) {
    && 0 <= k < |hits| && TimeOf(hits[k]).Some?
    && forall j :: 0 <= j < k ==> TimeOf(hits[j]) != TimeOf(hits[k])
  }

  /**
   The state of a row after any sequence of committed events: the first one with the greatest
   timestamp that beats the row's own; without timestamps anywhere, the last one.
   */
  ghost predicate EndsAt(r: Subscriber, hits: seq<Event>, t: Subscriber) {
    && (forall h :: h in hits ==> AtMost(TimeOf(h), t.updatedAt))
    && AtMost(r.updatedAt, t.updatedAt)
    && (t.updatedAt != r.updatedAt ==>
        exists k :: FirstAt(hits, k) && TimeOf(hits[k]) == t.updatedAt && Verdict(hits[k]) == Some(t.status))
    && (t.updatedAt == r.updatedAt && r.updatedAt.Some? ==> t.status == r.status)
    && (t.updatedAt.None? ==> Some(t.status) == if hits == [] then Some(r.status) else Verdict(hits[|hits| - 1]))
  }

  lemma {:induction false} HitsHaveVerdicts(r: Subscriber, events: seq<Event>)
    ensures forall h :: h in Hits(r, events) ==> Verdict(h).Some? && h in events
  {
    if events != [] {
      HitsHaveVerdicts(r, events[..|events| - 1]);
    }
  }

  lemma {:induction false} RowEndsAtGreatest(r: Subscriber, events: seq<Event>)
    ensures EndsAt(r, Hits(r, events), FoldRow(r, events))
  {
    if events != [] {
      var init, last := events[..|events| - 1], events[|events| - 1];
      var t, hits := FoldRow(r, init), Hits(r, init);
      RowEndsAtGreatest(r, init);
      if Matches(Stamp(t, last), last) {
        HitExtends(r, hits, t, last);
      }
    }
  }

  lemma HitExtends(r: Subscriber, hits: seq<Event>, t: Subscriber, last: Event)
    requires EndsAt(r, hits, t) && Verdict(last).Some?
    ensures EndsAt(r, hits + [last], Touch(t, Verdict(last).value, TimeOf(last)))
    ensures EndsAt(r, hits + [last], Touch(Stamp(t, last), Verdict(last).value, TimeOf(last)))
  {
    var more, u := hits + [last], Touch(t, Verdict(last).value, TimeOf(last));
    assert forall h :: h in more <==> h in hits || h == last;
    assert forall j :: 0 <= j < |hits| ==> more[j] == hits[j];
    if u.updatedAt != r.updatedAt {
      if u.updatedAt == t.updatedAt {
        var k :| FirstAt(hits, k) && TimeOf(hits[k]) == t.updatedAt && Verdict(hits[k]) == Some(t.status);
        assert FirstAt(more, k) && TimeOf(more[k]) == u.updatedAt;
      } else {
        assert forall j :: 0 <= j < |hits| ==> hits[j] in hits;
        assert FirstAt(more, |hits|);
      }
    }
  }

  // ----- the role behind a detail type -----

  /** A name as the table has them: no hyphen, no space at either end. */
  predicate Plain(name: string) {
    && name != "" && name[0] != ' ' && name[|name| - 1] != ' '
    && forall i :: 0 <= i < |name| ==> name[i] != '-'
  }

  lemma {:induction false} BaseOfPlain(name: string, suffix: string)
    requires forall i :: 0 <= i < |name| ==> name[i] != '-'
    requires suffix == "" || " - " <= suffix
    requires name != "" ==> name[|name| - 1] != ' '
    ensures BaseType(name + suffix) == name
  {
    var all := name + suffix;
    assert |" - "| == 3 && " - "[1] == '-' && " - "[0] == ' ';
    if name != "" {
      assert all[1..] == name[1..] + suffix && all[0] == name[0];
      assert !(" - " <= all);
      BaseOfPlain(name[1..], suffix);
    }
  }

  /** Every role behind a detail type is ignored, and a name outside the table has no status. */
  lemma RoleIsIgnored(name: string, role: string)
    requires Plain(name)
    ensures EventStatus(Some(name + " - " + role)) == EventStatus(Some(name))
    ensures EventStatus(Some(name)).Some?
       <==> name in {"License Updated", "License Deprovisioned", "Purchase Agreement Ended", "Purchase Agreement Created"}
  {
    var suffix := " - " + role;
    assert name + " - " + role == name + suffix && name + "" == name;
    BaseOfPlain(name, suffix);
    BaseOfPlain(name, "");
    assert Trim(name) == name;
  }

  /** The four names of the table, whatever role follows. */
  lemma StatusNames(role: string)
    ensures EventStatus(Some("License Updated" + " - " + role)) == Some(Active)
    ensures EventStatus(Some("License Deprovisioned" + " - " + role)) == Some(Cancelled)
    ensures EventStatus(Some("Purchase Agreement Ended" + " - " + role)) == Some(Cancelled)
    ensures EventStatus(Some("Purchase Agreement Created" + " - " + role)) == Some(Pending)
  {
    hide BaseType;
    TableName("License Updated", role);
    TableName("License Deprovisioned", role);
    TableName("Purchase Agreement Ended", role);
    TableName("Purchase Agreement Created", role);
  }

  lemma TableName(name: string, role: string)
    requires Plain(name)
    ensures Trim(BaseType(name + " - " + role)) == name
  {
    var suffix := " - " + role;
    assert name + " - " + role == name + suffix;
    BaseOfPlain(name, suffix);
  }

  predicate Blank(s: string) {
    forall i :: 0 <= i < |s| ==> s[i] == ' '
  }

  lemma {:induction false} TrimCutsBlanks(left: string, name: string, right: string)
    requires Blank(left) && Blank(right) && Plain(name)
    ensures Trim(left + name + right) == name
    decreases |left| + |right|
  {
    var s := left + name + right;
    if left != "" {
      assert s[0] == ' ' && s[1..] == left[1..] + name + right;
      TrimCutsBlanks(left[1..], name, right);
    } else {
      assert s == name + right && s[0] == name[0];
      TrimEndCutsBlanks(name, right);
    }
  }

  lemma {:induction false} TrimEndCutsBlanks(name: string, right: string)
    requires Blank(right) && name != "" && name[|name| - 1] != ' '
    ensures TrimEnd(name + right) == name
    decreases right
  {
    var s := name + right;
    if right != "" {
      assert s[|s| - 1] == ' ' && s[..|s| - 1] == name + right[..|right| - 1];
      TrimEndCutsBlanks(name, right[..|right| - 1]);
    } else {
      assert s == name;
    }
  }

  /** Blanks around a name make no difference. */
  lemma BlanksAreIgnored(left: string, name: string, right: string)
    requires Blank(left) && Blank(right) && Plain(name)
    ensures EventStatus(Some(left + name + right)) == EventStatus(Some(name))
  {
    var s := left + name + right;
    assert s + "" == s && name + "" == name;
    WithoutHyphen(s);
    WithoutHyphen(name);
    TrimCutsBlanks(left, name, right);
    TrimCutsBlanks("", name, "");
    assert "" + name + "" == name;
  }

  lemma {:induction false} WithoutHyphen(s: string)
    requires forall i :: 0 <= i < |s| ==> s[i] != '-'
    ensures BaseType(s) == s
  {
    if s != "" {
      assert |" - "| == 3 && " - "[1] == '-';
      WithoutHyphen(s[1..]);
    }
  }
}
