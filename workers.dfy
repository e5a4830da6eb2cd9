/** lib/workers.js: the uptime-check worker engine. A stored check is
    validated; a valid one is probed; the first of the probe's response,
    error and timeout events delivers the outcome; the outcome decides the
    check's new state and whether to alert; a log record is appended, the
    check is written back, and an SMS goes out on a state change. A second
    job compresses each active log and then truncates it. */
module Workers {
  import opened Text
  import opened Js
  import opened Helpers
  import opened Data
  import opened Logs

  type Fields = map<string, JsValue>

  /** A field of a check object, `undefined` when absent. */
  function Field(c: Fields, key: string): JsValue {
    if key in c then c[key] else Undefined
  }

  // ===== validateCheckData =====

  /** A typed validator's result as the JavaScript value it assigns. */
  function StringOrFalse(o: Option<string>): JsValue {
    if o.Some? then Str(o.value) else Bool(false)
  }

  function ArrayOrFalse(o: Option<seq<JsValue>>): JsValue {
    if o.Some? then Arr(o.value) else Bool(false)
  }

  /** The object validateCheckData writes into: the stored check itself when
      it is an object, otherwise a new `{}`. (A stored array is an object to
      `typeof` too; it has no `url`, so it is skipped either way.) */
  function InitialFields(found: JsValue): Fields {
    if found.Obj? then found.fields else map[]
  }

  /** The check after validateCheckData overwrote its fields with the
      validators' results; `url` is never validated and keeps its value. */
  function Validated(found: JsValue, h: MissingHelpers): Fields {
    InitialFields(found)
      ["id" := h.validateId(Get(found, "id"))]
      ["userPhone" := ValidatePhone(Get(found, "userPhone"))]
      ["method" := StringOrFalse(h.validateMethod(Get(found, "method")))]
      ["protocol" := StringOrFalse(h.validateProtocol(Get(found, "protocol")))]
      ["successCodes" := ArrayOrFalse(h.validateSuccessCodes(Get(found, "successCodes")))]
      ["timeoutSeconds" := h.validateTimeoutSeconds(Get(found, "timeoutSeconds"))]
      ["state" := h.validateState(Get(found, "state"))]
      ["lastChecked" := h.validateLastChecked(Get(found, "lastChecked"))]
  }

  /** The gate before performCheck: every required field is truthy. */
  predicate Eligible(c: Fields) {
    && Truthy(Field(c, "id"))
    && Truthy(Field(c, "userPhone"))
    && Truthy(Field(c, "method"))
    && Truthy(Field(c, "protocol"))
    && Truthy(Field(c, "successCodes"))
    && Truthy(Field(c, "timeoutSeconds"))
    && Truthy(Field(c, "url"))
  }

  /** The fields a stored check must carry to be probed. */
  const RequiredFields: seq<string> :=
    ["id", "userPhone", "method", "protocol", "successCodes", "timeoutSeconds", "url"]

  /** Validators that, as their names promise, reject a missing field. */
  predicate RejectsMissing(h: MissingHelpers) {
    && !Truthy(h.validateId(Undefined))
    && h.validateMethod(Undefined).None?
    && h.validateProtocol(Undefined).None?
    && h.validateSuccessCodes(Undefined).None?
    && !Truthy(h.validateTimeoutSeconds(Undefined))
  }

  /** The identifying fields of a validated check. */
  lemma ValidatedIdentity(found: JsValue, h: MissingHelpers)
    ensures var c := Validated(found, h);
            && Field(c, "id") == h.validateId(Get(found, "id"))
            && Field(c, "userPhone") == ValidatePhone(Get(found, "userPhone"))
            && Field(c, "url") == Get(found, "url")
  {
  }

  /** The request fields of a validated check. */
  lemma ValidatedRequest(found: JsValue, h: MissingHelpers)
    ensures var c := Validated(found, h);
            && Field(c, "method") == StringOrFalse(h.validateMethod(Get(found, "method")))
            && Field(c, "protocol") == StringOrFalse(h.validateProtocol(Get(found, "protocol")))
            && Field(c, "successCodes") == ArrayOrFalse(h.validateSuccessCodes(Get(found, "successCodes")))
            && Field(c, "timeoutSeconds") == h.validateTimeoutSeconds(Get(found, "timeoutSeconds"))
  {
  }

  /** A stored check lacking any required field is skipped, never probed. */
  lemma MissingFieldSkipped(found: JsValue, h: MissingHelpers, key: string)
    requires RejectsMissing(h)
    requires key in RequiredFields
    requires Get(found, key) == Undefined
    ensures !Eligible(Validated(found, h))
  {
    var c := Validated(found, h);
    assert key in {"id", "userPhone", "method", "protocol", "successCodes", "timeoutSeconds", "url"};
    if key in {"id", "userPhone", "url"} {
      ValidatedIdentity(found, h);
    } else {
      ValidatedRequest(found, h);
    }
    assert !Truthy(Field(c, key));
  }

  /** A check without a truthy `url` is skipped whatever the validators do,
      and so is one whose phone is not a 10-character string once trimmed. */
  lemma UnvalidatedFieldsGate(found: JsValue, h: MissingHelpers)
    ensures !Truthy(Get(found, "url")) ==> !Eligible(Validated(found, h))
    ensures !ValidatePhone(Get(found, "userPhone")).Str? ==> !Eligible(Validated(found, h))
  {
    ValidatedIdentity(found, h);
  }

  /** What a probed check looks like: it was stored as an object; its phone is
      the trimmed 10-character phone; method and protocol are non-empty
      strings, the success codes an array; `url` is as stored. */
  lemma EligibleShape(found: JsValue, h: MissingHelpers)
    requires Eligible(Validated(found, h))
    ensures found.Obj?
    ensures var c := Validated(found, h);
            && Field(c, "userPhone") == ValidatePhone(Get(found, "userPhone"))
            && Field(c, "userPhone").Str? && |Field(c, "userPhone").s| == 10
            && Field(c, "method").Str? && Field(c, "method").s != ""
            && Field(c, "protocol").Str? && Field(c, "protocol").s != ""
            && Field(c, "successCodes").Arr?
            && Field(c, "url") == Get(found, "url")
  {
    ValidatedIdentity(found, h);
    ValidatedRequest(found, h);
  }

  // ===== the probe and its one-shot gate =====

  datatype ProbeEvent = Response(statusCode: int) | NetworkError(err: JsValue) | Timeout

  /** The `checkOutcome` record: `error` and `responseCode` start as `false`. */
  datatype Outcome = Outcome(error: JsValue, responseCode: JsValue)

  const InitialOutcome := Outcome(Bool(false), Bool(false))

  /** The probe's mutable state: the outcome record and `outcomeSent`. */
  datatype Gate = Gate(outcome: Outcome, sent: bool)

  const InitialGate := Gate(InitialOutcome, false)

  /** What a listener does: hand the outcome to processCheckOutcome, do
      nothing, or (as written) throw. */
  datatype Reaction = Deliver(outcome: Outcome) | Ignore | ReferenceError

  /** The `{error: true, value}` object the error and timeout listeners mean
      to store. */
  function ErrorValue(e: ProbeEvent): JsValue
    requires !e.Response?
  {
    Obj(map["error" := Bool(true), "value" := if e.Timeout? then Str("timeout") else e.err])
  }

  /** The outcome record once the event's listener has written to it. */
  function Recorded(o: Outcome, e: ProbeEvent): Outcome {
    match e
    case Response(code) => o.(responseCode := Num(code))
    case _ => o.(error := ErrorValue(e))
  }

  /** One event with the listeners as intended: record the event, then pass
      the outcome on only if it has not been passed on before. */
  function Step(g: Gate, e: ProbeEvent): (r: (Gate, Reaction))
    ensures r.0.sent
    ensures r.1.Deliver? <==> !g.sent
  {
    var o := Recorded(g.outcome, e);
    if g.sent then (Gate(o, true), Ignore) else (Gate(o, true), Deliver(o))
  }

  /** The outcomes handed to processCheckOutcome for a sequence of events. */
  function Deliveries(g: Gate, events: seq<ProbeEvent>): seq<Outcome>
    decreases |events|
  {
    if events == [] then []
    else
      var (g', r) := Step(g, events[0]);
      (if r.Deliver? then [r.outcome] else []) + Deliveries(g', events[1..])
  }

  /** Once the outcome has been sent, no later event delivers anything. */
  lemma {:induction false} SentGateIgnores(g: Gate, events: seq<ProbeEvent>)
    requires g.sent
    ensures Deliveries(g, events) == []
    decreases |events|
  {
    if events != [] {
      SentGateIgnores(Step(g, events[0]).0, events[1..]);
    }
  }

  /** processCheckOutcome runs at most once per probe, and whichever event
      comes first is the one whose outcome it receives. */
  lemma {:induction false} FirstEventWins(events: seq<ProbeEvent>)
    ensures |Deliveries(InitialGate, events)| <= 1
    ensures events != [] ==> Deliveries(InitialGate, events) == [Recorded(InitialOutcome, events[0])]
  {
    if events != [] {
      SentGateIgnores(Step(InitialGate, events[0]).0, events[1..]);
    }
  }

  /** One event with the listeners as written: the error and timeout
      listeners assign to `checkoutCome` (lib/workers.js:116 and :130), a name
      declared nowhere, so they throw a ReferenceError before reaching the
      gate. The response listener is as intended. */
  function StepAsWritten(g: Gate, e: ProbeEvent): (Gate, Reaction) {
    if e.Response? then Step(g, e) else (g, ReferenceError)
  }

  /** Deliveries with the listeners as written; the thrown ReferenceError
      escapes the listener, and nothing after it is modelled. */
  function DeliveriesAsWritten(g: Gate, events: seq<ProbeEvent>): seq<Outcome>
    decreases |events|
  {
    if events == [] then []
    else
      var (g', r) := StepAsWritten(g, events[0]);
      if r.ReferenceError? then []
      else (if r.Deliver? then [r.outcome] else []) + DeliveriesAsWritten(g', events[1..])
  }

  /** As written, a probe whose first event is a network error or a timeout
      never reaches processCheckOutcome: the check is never marked down. */
  lemma ErrorFirstNeverProcessedAsWritten(e: ProbeEvent, rest: seq<ProbeEvent>)
    requires !e.Response?
    ensures DeliveriesAsWritten(InitialGate, [e] + rest) == []
  {
  }

  // ===== processCheckOutcome =====

  /** `successCodes.includes(code)` for a validated check. */
  predicate Accepts(c: Fields, code: JsValue) {
    Field(c, "successCodes").Arr? && Includes(Field(c, "successCodes").items, code)
  }

  /** The new state: "up" when there is no error and the response code is
      truthy and one of the success codes, "down" otherwise. */
  function NewState(c: Fields, o: Outcome): (state: string)
    ensures state == "up" || state == "down"
  {
    if !Truthy(o.error) && Truthy(o.responseCode) && Accepts(c, o.responseCode) then "up" else "down"
  }

  /** An alert is needed when the check ran before and its state changed. */
  predicate AlertNeeded(c: Fields, state: string) {
    Truthy(Field(c, "lastChecked")) && Field(c, "state") != Str(state)
  }

  function OutcomeObject(o: Outcome): JsValue {
    Obj(map["error" := o.error, "responseCode" := o.responseCode])
  }

  /** workers.log's record: the check as it was, the outcome, the new state,
      the alert decision and the time. */
  function LogRecord(c: Fields, o: Outcome, state: string, alert: bool, time: int): JsValue {
    Obj(map["check" := Obj(c), "outcome" := OutcomeObject(o), "state" := Str(state),
            "alert" := Bool(alert), "time" := Num(time)])
  }

  /** The check as processCheckOutcome writes it back. */
  function WrittenBack(c: Fields, state: string, time: int): Fields {
    c["state" := Str(state)]["lastChecked" := Num(time)]
  }

  /** A validated check, as performCheck and processCheckOutcome use it:
      `method` is a string (performCheck upper-cases it) and `successCodes`
      an array (processCheckOutcome calls `includes` on it). */
  predicate Probeable(c: Fields) {
    Field(c, "method").Str? && Field(c, "successCodes").Arr?
  }

  /** The SMS text of alertUserToStatusChange. */
  function AlertMessage(c: Fields): string
    requires Field(c, "method").Str? && Field(c, "state").Str?
  {
    "Alert: Your check for " + ToUpper(Field(c, "method").s) + " "
      + ToJsString(Field(c, "protocol")) + "://" + ToJsString(Field(c, "url"))
      + " is currently " + ToUpper(Field(c, "state").s) + "."
  }

  datatype Sms = Sms(phone: JsValue, message: string)

  /** Everything processCheckOutcome can change: the check object, the
      database, the log directory and the SMS messages sent so far. */
  datatype World = World(check: Fields, db: Database, files: Files, outbox: seq<Sms>)

  /** The key the check is stored and logged under. */
  function CheckKey(c: Fields): string {
    ToJsString(Field(c, "id"))
  }

  /** The effect of processCheckOutcome. */
  function ProcessEffect(w: World, o: Outcome, now: int, stringify: JsValue -> string,
                         appendFails: bool, updateFails: bool): World
    requires Probeable(w.check)
  {
    var state := NewState(w.check, o);
    var alert := AlertNeeded(w.check, state);
    var line := stringify(LogRecord(w.check, o, state, alert, now));
    var files := if appendFails then w.files else Appended(w.files, CheckKey(w.check), line);
    var written := WrittenBack(w.check, state, now);
    var saveFailed := ChangeFails(w.db, "checks", CheckKey(written), updateFails);
    var db := Updated(w.db, "checks", CheckKey(written), Obj(written), updateFails);
    var outbox := if !saveFailed && alert
                  then w.outbox + [Sms(Field(written, "userPhone"), AlertMessage(written))]
                  else w.outbox;
    World(written, db, files, outbox)
  }

  /** The written-back check differs from the original only in `state`, now
      the computed state, and `lastChecked`, now the time of the check. */
  lemma WriteBackChangesStateAndTime(w: World, o: Outcome, now: int, stringify: JsValue -> string,
                                      appendFails: bool, updateFails: bool)
    requires Probeable(w.check)
    ensures var r := ProcessEffect(w, o, now, stringify, appendFails, updateFails);
            && r.check.Keys == w.check.Keys + {"state", "lastChecked"}
            && (forall k :: k != "state" && k != "lastChecked" ==> Field(r.check, k) == Field(w.check, k))
            && Field(r.check, "state") == Str(NewState(w.check, o))
            && Field(r.check, "lastChecked") == Num(now)
  {
  }

  /** The database gets the written-back check under its id when the update
      succeeds, and is unchanged otherwise; no document is added or removed. */
  lemma SaveStoresWrittenBack(w: World, o: Outcome, now: int, stringify: JsValue -> string,
                              appendFails: bool, updateFails: bool)
    requires Probeable(w.check)
    ensures var r := ProcessEffect(w, o, now, stringify, appendFails, updateFails);
            && (forall d :: Docs(r.db, d).Keys == Docs(w.db, d).Keys)
            && (ChangeFails(w.db, "checks", CheckKey(w.check), updateFails) ==> r.db == w.db)
            && (!ChangeFails(w.db, "checks", CheckKey(w.check), updateFails) ==>
                  Docs(r.db, "checks")[CheckKey(w.check)] == Obj(r.check))
  {
    UpdateKeepsIds(w.db, "checks", CheckKey(w.check), Obj(ProcessEffect(w, o, now, stringify, appendFails, updateFails).check), updateFails);
  }

  /** The log line is appended to the check's own log and is serialised from
      the check before the update: it carries the old state and the old
      `lastChecked`, next to the new state. */
  lemma LogRecordPrecedesUpdate(w: World, o: Outcome, now: int, stringify: JsValue -> string,
                                updateFails: bool)
    requires Probeable(w.check)
    ensures var r := ProcessEffect(w, o, now, stringify, false, updateFails);
            var state := NewState(w.check, o);
            var record := LogRecord(w.check, o, state, AlertNeeded(w.check, state), now);
            && r.files == Appended(w.files, CheckKey(w.check), stringify(record))
            && Get(Get(record, "check"), "state") == Field(w.check, "state")
            && Get(Get(record, "check"), "lastChecked") == Field(w.check, "lastChecked")
            && Get(record, "state") == Str(state)
  {
  }

  /** A failed log append changes no log file. */
  lemma FailedAppendKeepsLogs(w: World, o: Outcome, now: int, stringify: JsValue -> string,
                              updateFails: bool)
    requires Probeable(w.check)
    ensures ProcessEffect(w, o, now, stringify, true, updateFails).files == w.files
  {
  }

  /** An SMS goes out exactly when the write-back succeeded and an alert is
      needed, and it is the alert text for the written-back check sent to
      the check's phone. */
  lemma AlertOnlyAfterSave(w: World, o: Outcome, now: int, stringify: JsValue -> string,
                           appendFails: bool, updateFails: bool)
    requires Probeable(w.check)
    ensures var r := ProcessEffect(w, o, now, stringify, appendFails, updateFails);
            var state := NewState(w.check, o);
            var sent := !ChangeFails(w.db, "checks", CheckKey(w.check), updateFails) && AlertNeeded(w.check, state);
            && (sent ==> r.outbox == w.outbox + [Sms(Field(w.check, "userPhone"), AlertMessage(r.check))])
            && (!sent ==> r.outbox == w.outbox)
  {
  }

  /** A check that never ran (falsy `lastChecked`) never raises an alert. */
  lemma FirstRunNeverAlerts(w: World, o: Outcome, now: int, stringify: JsValue -> string,
                            appendFails: bool, updateFails: bool)
    requires Probeable(w.check)
    requires !Truthy(Field(w.check, "lastChecked"))
    ensures ProcessEffect(w, o, now, stringify, appendFails, updateFails).outbox == w.outbox
  {
  }

  /** The state rule: "up" exactly when there is no error, the response code
      is truthy and the success codes include it; an error is always "down". */
  lemma StateRule(c: Fields, o: Outcome)
    ensures NewState(c, o) == "up" <==>
              !Truthy(o.error) && Truthy(o.responseCode) && Field(c, "successCodes").Arr?
              && o.responseCode in Field(c, "successCodes").items
    ensures Truthy(o.error) ==> NewState(c, o) == "down"
  {
  }

  /** The alert rule: needed exactly when `lastChecked` is truthy and the
      state changes. */
  lemma AlertRule(c: Fields, state: string)
    ensures AlertNeeded(c, state) <==> Truthy(Field(c, "lastChecked")) && Field(c, "state") != Str(state)
    ensures !Truthy(Field(c, "lastChecked")) ==> !AlertNeeded(c, state)
  {
  }

  /** The alert text is `Alert: Your check for <METHOD> <protocol>://<url> is
      currently <STATE>.`, method and state upper-cased. */
  lemma AlertMessageShape(c: Fields)
    requires Field(c, "method").Str? && Field(c, "state").Str?
    ensures var m := AlertMessage(c);
            var head := "Alert: Your check for " + ToUpper(Field(c, "method").s) + " ";
            var target := ToJsString(Field(c, "protocol")) + "://" + ToJsString(Field(c, "url"));
            var tail := " is currently " + ToUpper(Field(c, "state").s) + ".";
            && m[..|head|] == head
            && m[|head|..|head| + |target|] == target
            && m[|m| - |tail|..] == tail
  {
    var head := "Alert: Your check for " + ToUpper(Field(c, "method").s) + " ";
    var target := ToJsString(Field(c, "protocol")) + "://" + ToJsString(Field(c, "url"));
    var tail := " is currently " + ToUpper(Field(c, "state").s) + ".";
    assert AlertMessage(c) == head + target + tail;
  }

  /** A timeout always marks the check down. */
  lemma TimeoutMeansDown(c: Fields)
    ensures NewState(c, Recorded(InitialOutcome, Timeout)) == "down"
  {
    assert Truthy(Recorded(InitialOutcome, Timeout).error);
  }

  /** The alert for a check that went down ends with "is currently DOWN.". */
  lemma DownAlertText(c: Fields)
    requires Field(c, "method").Str? && Field(c, "state") == Str("down")
    ensures EndsWith(AlertMessage(c), " is currently DOWN.")
  {
    assert ToUpper("down") == "DOWN";
    AlertMessageShape(c);
  }

  /** A check that was up and now times out goes down, and since it ran
      before, its owner gets the alert saying DOWN. */
  lemma TimeoutAfterUpAlertsDown(w: World, now: int, stringify: JsValue -> string, rest: seq<ProbeEvent>)
    requires Probeable(w.check)
    requires Field(w.check, "state") == Str("up") && Truthy(Field(w.check, "lastChecked"))
    requires !ChangeFails(w.db, "checks", CheckKey(w.check), false)
    ensures Deliveries(InitialGate, [Timeout] + rest) == [Recorded(InitialOutcome, Timeout)]
    ensures var r := ProcessEffect(w, Recorded(InitialOutcome, Timeout), now, stringify, false, false);
            && Field(r.check, "state") == Str("down")
            && r.outbox == w.outbox + [Sms(Field(w.check, "userPhone"), AlertMessage(r.check))]
            && EndsWith(AlertMessage(r.check), " is currently DOWN.")
  {
    FirstEventWins([Timeout] + rest);
    var o := Recorded(InitialOutcome, Timeout);
    TimeoutMeansDown(w.check);
    WriteBackChangesStateAndTime(w, o, now, stringify, false, false);
    AlertOnlyAfterSave(w, o, now, stringify, false, false);
    DownAlertText(ProcessEffect(w, o, now, stringify, false, false).check);
  }

  /** What one worker run may do to the world: no document is created or
      removed, only checks change, SMS messages are only added, and log files
      only grow, every new one an active log. */
  ghost predicate Grows(a: World, b: World) {
    && (forall d :: Docs(b.db, d).Keys == Docs(a.db, d).Keys)
    && (forall d :: d != "checks" ==> Docs(b.db, d) == Docs(a.db, d))
    && a.outbox <= b.outbox
    && (forall f :: f in a.files ==> f in b.files && a.files[f] <= b.files[f])
    && (forall f :: f in b.files && f !in a.files ==> EndsWith(f, LogSuffix))
  }

  lemma GrowsTransitive(a: World, b: World, c: World)
    requires Grows(a, b) && Grows(b, c)
    ensures Grows(a, c)
  {
    forall f | f in a.files ensures a.files[f] <= c.files[f] {
      assert a.files[f] <= b.files[f] <= c.files[f];
    }
  }

  /** processCheckOutcome only grows the world. */
  lemma ProcessGrows(w: World, o: Outcome, now: int, stringify: JsValue -> string,
                     appendFails: bool, updateFails: bool)
    requires Probeable(w.check)
    ensures Grows(w, ProcessEffect(w, o, now, stringify, appendFails, updateFails))
  {
    var r := ProcessEffect(w, o, now, stringify, appendFails, updateFails);
    SaveStoresWrittenBack(w, o, now, stringify, appendFails, updateFails);
    if !appendFails {
      var state := NewState(w.check, o);
      var line := stringify(LogRecord(w.check, o, state, AlertNeeded(w.check, state), now));
      AppendKeepsHistory(w.files, CheckKey(w.check), line);
      EndsWithAppended(CheckKey(w.check), LogSuffix);
      forall f | f in w.files ensures w.files[f] <= r.files[f] {
        if f != CheckKey(w.check) + LogSuffix {
          assert Contents(r.files, f) == Contents(w.files, f);
        }
      }
    }
  }

  // ===== gatherAllChecks =====

  /** The stored check under `id` is not probed: it cannot be read, it is
      falsy, or it fails validateCheckData's gate. */
  predicate Skipped(db: Database, id: string, h: MissingHelpers) {
    var found := Lookup(db, "checks", id);
    found.None? || !Truthy(found.value) || !Eligible(Validated(found.value, h))
  }

  /** What gatherAllChecks does for one listed id: read the check, validate
      it, and, when it is eligible and its probe produces an event, apply
      processCheckOutcome for the first event's outcome. */
  function CheckEffect(w: World, id: string, h: MissingHelpers, stringify: JsValue -> string,
                       scripts: string -> ProbeScript): World
  {
    var found := Lookup(w.db, "checks", id);
    if found.None? || !Truthy(found.value) then w
    else
      var c := Validated(found.value, h);
      var script := scripts(id);
      if !Eligible(c) || script.events == [] then w
      else
        EligibleShape(found.value, h);
        var r := ProcessEffect(World(c, w.db, w.files, w.outbox), Recorded(InitialOutcome, script.events[0]),
                               script.now, stringify, script.appendFails, script.updateFails);
        World(map[], r.db, r.files, r.outbox)
  }

  /** What gatherAllChecks does for the listed ids, taken in order. */
  function ScanEffect(w: World, ids: seq<string>, h: MissingHelpers, stringify: JsValue -> string,
                      scripts: string -> ProbeScript): World
    decreases |ids|
  {
    if ids == [] then w
    else CheckEffect(ScanEffect(w, ids[..|ids| - 1], h, stringify, scripts), ids[|ids| - 1], h, stringify, scripts)
  }

  /** A check that is skipped leaves the world as it was. */
  lemma SkippedCheckUntouched(w: World, id: string, h: MissingHelpers, stringify: JsValue -> string,
                              scripts: string -> ProbeScript)
    requires Skipped(w.db, id, h)
    ensures CheckEffect(w, id, h, stringify, scripts) == w
  {
  }

  /** A stored check lacking any required field is never probed: nothing is
      logged, saved or sent for it. */
  lemma MissingFieldNeverProbed(w: World, id: string, h: MissingHelpers, stringify: JsValue -> string,
                                scripts: string -> ProbeScript, key: string)
    requires RejectsMissing(h)
    requires key in RequiredFields
    requires Lookup(w.db, "checks", id).Some? ==> Get(Lookup(w.db, "checks", id).value, key) == Undefined
    ensures Skipped(w.db, id, h)
    ensures CheckEffect(w, id, h, stringify, scripts) == w
  {
    var found := Lookup(w.db, "checks", id);
    if found.Some? {
      MissingFieldSkipped(found.value, h, key);
    }
  }

  /** A scan in which every listed check is skipped changes nothing. */
  lemma {:induction false} ScanSkipsIneligible(w: World, ids: seq<string>, h: MissingHelpers,
                                               stringify: JsValue -> string, scripts: string -> ProbeScript)
    requires forall i :: 0 <= i < |ids| ==> Skipped(w.db, ids[i], h)
    ensures ScanEffect(w, ids, h, stringify, scripts) == w
    decreases |ids|
  {
    if ids != [] {
      ScanSkipsIneligible(w, ids[..|ids| - 1], h, stringify, scripts);
      SkippedCheckUntouched(w, ids[|ids| - 1], h, stringify, scripts);
    }
  }

  // ===== rotateLogs =====

  /** A compressed log that holds `content`. */
  ghost predicate Archived(files: Files, content: string) {
    exists d :: d in files && EndsWith(d, ArchiveSuffix) && files[d] == content
  }

  /** Nothing is lost between two states of the log directory: no file
      disappears, only active logs change, an active log that changed is
      empty and its former contents sit encoded in a compressed log, and
      every new file is a compressed log. */
  ghost predicate Preserved(before: Files, after: Files, encode: string -> string) {
    && (forall f :: f in before ==> f in after)
    && (forall f :: f in before && !EndsWith(f, LogSuffix) ==> after[f] == before[f])
    && (forall f :: f in before && EndsWith(f, LogSuffix) && after[f] != before[f] ==>
          after[f] == "" && Archived(after, encode(before[f])))
    && (forall f :: f in after && f !in before ==> EndsWith(f, ArchiveSuffix))
  }

  lemma {:induction false} PreservedTransitive(a: Files, b: Files, c: Files, encode: string -> string)
    requires Preserved(a, b, encode) && Preserved(b, c, encode)
    ensures Preserved(a, c, encode)
  {
    forall f | f in a && EndsWith(f, LogSuffix) && c[f] != a[f]
      ensures c[f] == "" && Archived(c, encode(a[f]))
    {
      if b[f] == a[f] {
        assert c[f] != b[f];
      } else {
        var d :| d in b && EndsWith(d, ArchiveSuffix) && b[d] == encode(a[f]);
        SuffixesDisjoint(d);
        assert c[d] == b[d];
      }
    }
    forall f | f in c && f !in a ensures EndsWith(f, ArchiveSuffix) {
      if f in b {
        assert f !in a;
      }
    }
  }

  lemma EndsWithAppended(x: string, suffix: string)
    ensures EndsWith(x + suffix, suffix)
  {
    assert (x + suffix)[|x + suffix| - |suffix|..] == suffix;
  }

  /** The directory after one log's rotation: compress, and truncate only
      when compress reported success. */
  function RotatedFiles(files: Files, encode: string -> string, logId: string, newFileId: string,
                        fault: CompressFault, truncateFails: bool): Files
  {
    var compressed := CompressedFiles(files, encode, logId, newFileId, fault);
    if CompressReplyOf(files, logId, newFileId, fault) == Compressed
    then TruncatedFiles(compressed, logId, truncateFails)
    else compressed
  }

  /** One rotation attempt: its `Date.now()` and the faults it meets. */
  datatype Attempt = Attempt(now: nat, compressFault: CompressFault, truncateFails: bool)

  /** The rotated-log name `<logId>-<now>`. */
  function RotatedName(logId: string, now: nat): string {
    logId + "-" + NatToString(now)
  }

  /** Rotation truncates an active log only after compress reported success,
      and then the new compressed log holds that log's former contents; a
      compress error (or no callback) leaves the active log untouched. */
  lemma TruncateOnlyAfterCompress(files: Files, encode: string -> string, logId: string, newFileId: string,
                                  fault: CompressFault, truncateFails: bool)
    ensures var r := RotatedFiles(files, encode, logId, newFileId, fault, truncateFails);
            var src := logId + LogSuffix;
            && (CompressReplyOf(files, logId, newFileId, fault) != Compressed ==> Contents(r, src) == Contents(files, src))
            && (Contents(r, src) != Contents(files, src) ==>
                  && CompressReplyOf(files, logId, newFileId, fault) == Compressed
                  && Contents(r, src) == ""
                  && r[newFileId + ArchiveSuffix] == encode(files[src]))
  {
    var compressed := CompressedFiles(files, encode, logId, newFileId, fault);
    CompressAddsOnly(files, encode, logId, newFileId, fault);
    SuffixesDisjoint(newFileId + ArchiveSuffix);
    EndsWithAppended(newFileId, ArchiveSuffix);
    EndsWithAppended(logId, LogSuffix);
  }

  /** One log's rotation loses nothing. */
  lemma {:induction false} RotationPreserves(files: Files, encode: string -> string, logId: string, newFileId: string,
                                             fault: CompressFault, truncateFails: bool)
    ensures Preserved(files, RotatedFiles(files, encode, logId, newFileId, fault, truncateFails), encode)
  {
    var r := RotatedFiles(files, encode, logId, newFileId, fault, truncateFails);
    var compressed := CompressedFiles(files, encode, logId, newFileId, fault);
    var src := logId + LogSuffix;
    var dest := newFileId + ArchiveSuffix;
    CompressAddsOnly(files, encode, logId, newFileId, fault);
    EndsWithAppended(newFileId, ArchiveSuffix);
    EndsWithAppended(logId, LogSuffix);
    SuffixesDisjoint(dest);
    forall f | f in files && EndsWith(f, LogSuffix) && r[f] != files[f]
      ensures r[f] == "" && Archived(r, encode(files[f]))
    {
      assert f == src;
      assert dest in r && r[dest] == encode(files[f]);
    }
  }

  /** Rotating the listed name `chk123` with content, along the route
      rotateOne takes (the id is `logIdOf("chk123")`), for a `logIdOf` that
      gives the name back: the compressed log `chk123-<now>` holds the
      encoded content and the active log is empty. */
  lemma RotationScenario(content: string, encode: string -> string, now: nat, logIdOf: string -> string)
    requires content != ""
    requires logIdOf("chk123") == "chk123"
    ensures var files := map["chk123.log" := content];
            var logId := logIdOf("chk123");
            RotatedFiles(files, encode, logId, RotatedName(logId, now), NoFault, false)
              == map["chk123.log" := "", RotatedName("chk123", now) + ".gz.b64" := encode(content)]
  {
    var name := RotatedName("chk123", now);
    var files := map["chk123.log" := content];
    assert "chk123" + LogSuffix == "chk123.log";
    assert name + ArchiveSuffix == name + ".gz.b64";
    assert name + ".gz.b64" != "chk123.log" by {
      EndsWithAppended(name, ArchiveSuffix);
      SuffixesDisjoint(name + ArchiveSuffix);
    }
    assert CompressReplyOf(files, "chk123", name, NoFault) == Compressed;
    assert CompressedFiles(files, encode, "chk123", name, NoFault) == files[name + ".gz.b64" := encode(content)];
  }

  /** As written, the id is `Number(logName.replace('log', ''))`: for a name
      that is not a numeral once "log" is removed (such as `chk123`) it is
      NaN, compress reads the absent `NaN.log` and never calls back, and the
      log is not rotated at all. */
  lemma UnparsableLogNameNotRotated(files: Files, encode: string -> string, logName: string,
                                    logIdOf: string -> string, now: nat, fault: CompressFault, truncateFails: bool)
    requires logIdOf(logName) == "NaN"
    requires "NaN.log" !in files
    ensures var logId := logIdOf(logName);
            RotatedFiles(files, encode, logId, RotatedName(logId, now), fault, truncateFails) == files
  {
    assert "NaN" + LogSuffix == "NaN.log";
  }

  /** rotateOne for one listed name, as attempt `a`: the id is
      `logIdOf(logName)` and the compressed log `<logId>-<a.now>`. */
  function RotatedListed(files: Files, encode: string -> string, logIdOf: string -> string,
                         logName: string, a: Attempt): Files
  {
    var logId := logIdOf(logName);
    RotatedFiles(files, encode, logId, RotatedName(logId, a.now), a.compressFault, a.truncateFails)
  }

  /** The names of one list callback rotated in order, the i-th name as
      attempt `first + i`. */
  function RotatedNames(files: Files, encode: string -> string, logIdOf: string -> string,
                        names: seq<string>, attempts: nat -> Attempt, first: nat): Files
  {
    if names == [] then files
    else RotatedListed(RotatedNames(files, encode, logIdOf, names[..|names| - 1], attempts, first),
                       encode, logIdOf, names[|names| - 1], attempts(first + |names| - 1))
  }

  lemma RotatedNamesStep(files: Files, encode: string -> string, logIdOf: string -> string,
                         names: seq<string>, attempts: nat -> Attempt, first: nat, j: nat)
    requires j < |names|
    ensures RotatedNames(files, encode, logIdOf, names[..j + 1], attempts, first)
         == RotatedListed(RotatedNames(files, encode, logIdOf, names[..j], attempts, first),
                          encode, logIdOf, names[j], attempts(first + j))
  {
    var p := names[..j + 1];
    assert p[..|p| - 1] == names[..j];
    assert p[|p| - 1] == names[j];
  }

  /** How many names the callbacks carry in all. */
  function NameCount(replies: seq<ListReply>): nat {
    if replies == [] then 0
    else NameCount(replies[..|replies| - 1])
         + (match replies[|replies| - 1] case ListNames(names) => |names| case ListError => 0)
  }

  /** Every list callback's names rotated, callback after callback, with the
      attempts numbered across all of them; an error callback rotates
      nothing. */
  function RotatedReplies(files: Files, encode: string -> string, logIdOf: string -> string,
                          replies: seq<ListReply>, attempts: nat -> Attempt): Files
  {
    if replies == [] then files
    else
      var earlier := replies[..|replies| - 1];
      var before := RotatedReplies(files, encode, logIdOf, earlier, attempts);
      match replies[|replies| - 1]
      case ListError => before
      case ListNames(names) => RotatedNames(before, encode, logIdOf, names, attempts, NameCount(earlier))
  }

  /** Rotating a callback's names loses nothing. */
  lemma {:induction false} RotatedNamesPreserve(files: Files, encode: string -> string, logIdOf: string -> string,
                                                names: seq<string>, attempts: nat -> Attempt, first: nat)
    ensures Preserved(files, RotatedNames(files, encode, logIdOf, names, attempts, first), encode)
  {
    if names != [] {
      var before := RotatedNames(files, encode, logIdOf, names[..|names| - 1], attempts, first);
      var logId := logIdOf(names[|names| - 1]);
      var a := attempts(first + |names| - 1);
      RotatedNamesPreserve(files, encode, logIdOf, names[..|names| - 1], attempts, first);
      RotationPreserves(before, encode, logId, RotatedName(logId, a.now), a.compressFault, a.truncateFails);
      PreservedTransitive(files, before, RotatedNames(files, encode, logIdOf, names, attempts, first), encode);
    }
  }

  /** Every rotation of a whole rotateLogs run loses nothing: no file
      disappears, and every active log that changed is empty and archived. */
  lemma {:induction false} RotatedRepliesPreserve(files: Files, encode: string -> string, logIdOf: string -> string,
                                                  replies: seq<ListReply>, attempts: nat -> Attempt)
    ensures Preserved(files, RotatedReplies(files, encode, logIdOf, replies, attempts), encode)
  {
    if replies != [] {
      var earlier := replies[..|replies| - 1];
      var before := RotatedReplies(files, encode, logIdOf, earlier, attempts);
      RotatedRepliesPreserve(files, encode, logIdOf, earlier, attempts);
      match replies[|replies| - 1]
      case ListError =>
      case ListNames(names) =>
        RotatedNamesPreserve(before, encode, logIdOf, names, attempts, NameCount(earlier));
        PreservedTransitive(files, before, RotatedReplies(files, encode, logIdOf, replies, attempts), encode);
    }
  }

  /** The last list callback carries every active log of the directory, so
      rotateLogs attempts each of them at least once (and the log of the
      k-th entry once for every callback from the k-th on). */
  lemma LastReplyListsEveryLog(entries: seq<string>, isFileType: (string, string) -> bool)
    requires entries != []
    ensures Replies(entries, false, isFileType)[|entries| - 1] == ListNames(LogNames(entries, isFileType))
  {
    RepliesAt(entries, false, isFileType, |entries| - 1);
    assert entries[..|entries|] == entries;
    ListingWithoutArchives(entries, isFileType);
  }

  // ===== the engine's objects =====

  /** What happens to one probe: its events in arrival order, the time
      processCheckOutcome reads, and whether the log append and the
      write-back fail. */
  datatype ProbeScript = ProbeScript(events: seq<ProbeEvent>, now: int, appendFails: bool, updateFails: bool)

  /** The check object a pipeline works on; processCheckOutcome writes into
      it in place (`newCheckData` is the same object as `originalCheckData`). */
  class CheckData {
    var fields: Fields

    constructor (fields: Fields)
      ensures this.fields == fields
    {
      this.fields := fields;
    }
  }

  /** performCheck's per-probe state: the outcome record and the flag. */
  class Probe {
    var outcome: Outcome
    var outcomeSent: bool

    constructor ()
      ensures outcome == InitialOutcome && !outcomeSent
    {
      outcome := InitialOutcome;
      outcomeSent := false;
    }

    /** The listener for one event. The error and timeout listeners are
        modelled as intended, writing to the outcome record; as written they
        name the undeclared `checkoutCome` and throw (see StepAsWritten). */
    method Handle(e: ProbeEvent) returns (r: Reaction)
      modifies this
      ensures (Gate(outcome, outcomeSent), r) == Step(Gate(old(outcome), old(outcomeSent)), e)
    {
      match e {
        case Response(statusCode) =>
          outcome := outcome.(responseCode := Num(statusCode));
        case NetworkError(err) =>
          outcome := outcome.(error := Obj(map["error" := Bool(true), "value" := err]));
        case Timeout =>
          outcome := outcome.(error := Obj(map["error" := Bool(true), "value" := Str("timeout")]));
      }
      if !outcomeSent {
        r := Deliver(outcome);
        outcomeSent := true;
      } else {
        r := Ignore;
      }
    }
  }

  class Worker {
    const data: Store
    const logs: LogDir
    const helpers: MissingHelpers
    /** JSON.stringify. */
    const stringify: JsValue -> string
    /** `Number(logName.replace('log', ''))` rendered back to a string. */
    const logIdOf: string -> string
    /** The messages handed to helpers.sendSMS, oldest first. */
    var outbox: seq<Sms>

    constructor (data: Store, logs: LogDir, helpers: MissingHelpers, stringify: JsValue -> string,
                 logIdOf: string -> string)
      ensures this.data == data && this.logs == logs && this.helpers == helpers
      ensures this.stringify == stringify && this.logIdOf == logIdOf && outbox == []
    {
      this.data := data;
      this.logs := logs;
      this.helpers := helpers;
      this.stringify := stringify;
      this.logIdOf := logIdOf;
      outbox := [];
    }

    function WorldOf(check: CheckData): World
      reads this, data, logs, check
    {
      World(check.fields, data.db, logs.files, outbox)
    }

    /** validateCheckData: overwrite the fields with the validators' results
        and report whether the check may be probed. */
    method ValidateCheckData(foundCheckData: JsValue) returns (check: CheckData, eligible: bool)
      ensures fresh(check)
      ensures check.fields == Validated(foundCheckData, helpers)
      ensures eligible == Eligible(check.fields)
    {
      check := new CheckData(InitialFields(foundCheckData));
      check.fields := check.fields["id" := helpers.validateId(Get(foundCheckData, "id"))];
      check.fields := check.fields["userPhone" := ValidatePhone(Get(foundCheckData, "userPhone"))];
      check.fields := check.fields["method" := StringOrFalse(helpers.validateMethod(Get(foundCheckData, "method")))];
      check.fields := check.fields["protocol" := StringOrFalse(helpers.validateProtocol(Get(foundCheckData, "protocol")))];
      check.fields := check.fields["successCodes" :=
        ArrayOrFalse(helpers.validateSuccessCodes(Get(foundCheckData, "successCodes")))];
      check.fields := check.fields["timeoutSeconds" := helpers.validateTimeoutSeconds(Get(foundCheckData, "timeoutSeconds"))];
      check.fields := check.fields["state" := helpers.validateState(Get(foundCheckData, "state"))];
      check.fields := check.fields["lastChecked" := helpers.validateLastChecked(Get(foundCheckData, "lastChecked"))];
      eligible := Eligible(check.fields);
    }

    /** workers.log: serialise the record and append it to the check's log. */
    method Log(c: Fields, o: Outcome, state: string, alertNeeded: bool, timeOfCheck: int, appendFails: bool)
      modifies logs
      ensures logs.files == if appendFails then old(logs.files)
                            else Appended(old(logs.files), CheckKey(c), stringify(LogRecord(c, o, state, alertNeeded, timeOfCheck)))
    {
      var logString := stringify(LogRecord(c, o, state, alertNeeded, timeOfCheck));
      var _ := logs.Append(CheckKey(c), logString, appendFails);
    }

    /** alertUserToStatusChange: hand the alert text to sendSMS. */
    method AlertUserToStatusChange(c: Fields)
      requires Field(c, "method").Str? && Field(c, "state").Str?
      modifies this
      ensures outbox == old(outbox) + [Sms(Field(c, "userPhone"), AlertMessage(c))]
    {
      outbox := outbox + [Sms(Field(c, "userPhone"), AlertMessage(c))];
    }

    /** processCheckOutcome. */
    method ProcessCheckOutcome(check: CheckData, o: Outcome, now: int, appendFails: bool, updateFails: bool)
      requires Probeable(check.fields)
      modifies this, data, logs, check
      ensures WorldOf(check) == ProcessEffect(old(WorldOf(check)), o, now, stringify, appendFails, updateFails)
    {
      var originalCheckData := check.fields;
      var state := NewState(originalCheckData, o);
      var alertNeeded := AlertNeeded(originalCheckData, state);
      var timeOfCheck := now;
      Log(originalCheckData, o, state, alertNeeded, timeOfCheck, appendFails);
      check.fields := check.fields["state" := Str(state)];
      check.fields := check.fields["lastChecked" := Num(timeOfCheck)];
      var failed := data.Update("checks", CheckKey(check.fields), Obj(check.fields), updateFails);
      if !failed && alertNeeded {
        AlertUserToStatusChange(check.fields);
      }
    }

    /** performCheck: the probe's events arrive in the order given; each
        listener records its event and the first one passes the outcome to
        processCheckOutcome. */
    method PerformCheck(check: CheckData, events: seq<ProbeEvent>, now: int, appendFails: bool, updateFails: bool)
      requires Probeable(check.fields)
      modifies this, data, logs, check
      ensures WorldOf(check) == if events == [] then old(WorldOf(check))
                                else ProcessEffect(old(WorldOf(check)), Recorded(InitialOutcome, events[0]),
                                                   now, stringify, appendFails, updateFails)
    {
      var probe := new Probe();
      var i := 0;
      while i < |events|
        invariant 0 <= i <= |events|
        invariant fresh(probe)
        invariant probe.outcomeSent <==> i > 0
        invariant i == 0 ==> probe.outcome == InitialOutcome && WorldOf(check) == old(WorldOf(check))
        invariant i > 0 ==> WorldOf(check) == ProcessEffect(old(WorldOf(check)), Recorded(InitialOutcome, events[0]),
                                                             now, stringify, appendFails, updateFails)
      {
        var reaction := probe.Handle(events[i]);
        if reaction.Deliver? {
          ProcessCheckOutcome(check, reaction.outcome, now, appendFails, updateFails);
        }
        i := i + 1;
      }
    }

    /** The world as gatherAllChecks sees it (no check object in hand). */
    function Effects(): World
      reads this, data, logs
    {
      World(map[], data.db, logs.files, outbox)
    }

    /** The callback gatherAllChecks runs for one listed id: read the check,
        validate it, and probe it when it is eligible. */
    method ScanOne(id: string, scripts: string -> ProbeScript)
      modifies this, data, logs
      ensures Effects() == CheckEffect(old(Effects()), id, helpers, stringify, scripts)
      ensures Grows(old(Effects()), Effects())
    {
      var originalCheckData := data.Read("checks", id);
      if originalCheckData.Some? && Truthy(originalCheckData.value) {
        var check, eligible := ValidateCheckData(originalCheckData.value);
        if eligible {
          EligibleShape(originalCheckData.value, helpers);
          var script := scripts(id);
          ghost var before := WorldOf(check);
          PerformCheck(check, script.events, script.now, script.appendFails, script.updateFails);
          if script.events != [] {
            ProcessGrows(before, Recorded(InitialOutcome, script.events[0]), script.now, stringify,
                         script.appendFails, script.updateFails);
          }
          GrowsTransitive(old(Effects()), before, WorldOf(check));
        }
      }
    }

    /** gatherAllChecks: list the stored checks, read each, validate it and
        probe it when it is eligible. The probe of check `id` unfolds as
        `scripts(id)` says. */
    method GatherAllChecks(listFails: bool, scripts: string -> ProbeScript)
      modifies this, data, logs
      ensures listFails ==> Effects() == old(Effects())
      ensures !listFails ==> exists ids ::
                && IsIdListing(ids, Docs(old(data.db), "checks"))
                && Effects() == ScanEffect(old(Effects()), ids, helpers, stringify, scripts)
      ensures (forall id :: id in Docs(old(data.db), "checks") ==> Skipped(old(data.db), id, helpers)) ==>
                Effects() == old(Effects())
      ensures Grows(old(Effects()), Effects())
    {
      var err, foundChecks := data.List("checks", listFails);
      assert !err ==> IsIdListing(foundChecks, Docs(data.db, "checks"));
      if !err && |foundChecks| > 0 {
        var i := 0;
        while i < |foundChecks|
          invariant 0 <= i <= |foundChecks|
          invariant Effects() == ScanEffect(old(Effects()), foundChecks[..i], helpers, stringify, scripts)
          invariant Grows(old(Effects()), Effects())
        {
          ghost var w := Effects();
          ScanOne(foundChecks[i], scripts);
          GrowsTransitive(old(Effects()), w, Effects());
          assert foundChecks[..i + 1][..i] == foundChecks[..i];
          i := i + 1;
        }
      }
      if !err {
        assert foundChecks[..|foundChecks|] == foundChecks;
        if forall id :: id in Docs(old(data.db), "checks") ==> Skipped(old(data.db), id, helpers) {
          ScanSkipsIneligible(old(Effects()), foundChecks, helpers, stringify, scripts);
        }
      }
    }

    /** One log's rotation: compress into `<logId>-<now>`, then truncate if
        compress succeeded. */
    method RotateOne(logName: string, now: nat, fault: CompressFault, truncateFails: bool)
      modifies logs
      ensures logs.files == RotatedFiles(old(logs.files), logs.encode, logIdOf(logName),
                                         RotatedName(logIdOf(logName), now), fault, truncateFails)
    {
      var logId := logIdOf(logName);
      var newFileId := RotatedName(logId, now);
      var reply := logs.Compress(logId, newFileId, fault);
      if reply == Compressed {
        var _ := logs.Truncate(logId, truncateFails);
      }
    }

    /** The body of one list callback: rotate each of its names in turn,
        the i-th as attempt `first + i`. */
    method RotateNames(logNames: seq<string>, attempts: nat -> Attempt, first: nat)
      modifies logs
      ensures logs.files == RotatedNames(old(logs.files), logs.encode, logIdOf, logNames, attempts, first)
    {
      var j := 0;
      while j < |logNames|
        invariant 0 <= j <= |logNames|
        invariant logs.files == RotatedNames(old(logs.files), logs.encode, logIdOf, logNames[..j], attempts, first)
      {
        ghost var before := logs.files;
        var a := attempts(first + j);
        RotateOne(logNames[j], a.now, a.compressFault, a.truncateFails);
        assert logs.files == RotatedListed(before, logs.encode, logIdOf, logNames[j], a);
        RotatedNamesStep(old(logs.files), logs.encode, logIdOf, logNames, attempts, first, j);
        j := j + 1;
      }
      assert logNames[..|logNames|] == logNames;
    }

    /** rotateLogs: list the active logs (the list callback runs once per
        directory entry) and rotate every name each callback receives. The
        n-th rotation attempt happens at `attempts(n).now` and meets the
        faults in `attempts(n)`. */
    method RotateLogs(entries: seq<string>, readFails: bool, attempts: nat -> Attempt)
      requires IsListing(entries, logs.files)
      modifies logs
      ensures readFails || entries == [] ==> logs.files == old(logs.files)
      ensures !readFails && entries != [] ==>
                logs.files == RotatedReplies(old(logs.files), logs.encode, logIdOf,
                                             Replies(entries, false, helpers.isFileType), attempts)
      ensures Preserved(old(logs.files), logs.files, logs.encode)
    {
      var replies := logs.List(false, helpers.isFileType, entries, readFails);
      var attempt := 0;
      var k := 0;
      while k < |replies|
        invariant 0 <= k <= |replies|
        invariant attempt == NameCount(replies[..k])
        invariant logs.files == RotatedReplies(old(logs.files), logs.encode, logIdOf, replies[..k], attempts)
      {
        assert replies[..k + 1][..k] == replies[..k];
        match replies[k] {
          case ListError =>
          case ListNames(logNames) =>
            RotateNames(logNames, attempts, attempt);
            attempt := attempt + |logNames|;
        }
        k := k + 1;
      }
      assert replies[..|replies|] == replies;
      RotatedRepliesPreserve(old(logs.files), logs.encode, logIdOf, replies, attempts);
    }
  }
}
