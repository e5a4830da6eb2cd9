/** lib/helpers.js: password hashing, phone validation and JSON parsing, plus
    the helpers that the other files call but helpers.js never defines. */
module Helpers {
  import opened Text
  import opened Js

  /** The foreign code helpers.js relies on. `hmac(key, message)` is Node's
      HMAC-SHA512 hex digest; `jsonParse` is JSON.parse, giving the parsed
      value or the SyntaxError it throws; `random` is a source of random
      draws (used only by the corrected random-string helper). */
  datatype Natives = Natives(
    hmac: (string, string) -> string,
    secret: string,
    jsonParse: string -> Result<JsValue, JsValue>,
    random: nat -> nat)

  /** The helpers that lib/workers.js, lib/handlers.js and lib/logs.js call
      but lib/helpers.js does not define. The model takes each as an
      unspecified function; the validators of fields that later code uses as
      strings or arrays are typed to give a string (or array) or `false`. */
  datatype MissingHelpers = MissingHelpers(
    validateId: JsValue -> JsValue,
    validateMethod: JsValue -> Option<string>,
    validateProtocol: JsValue -> Option<string>,
    validateSuccessCodes: JsValue -> Option<seq<JsValue>>,
    validateTimeoutSeconds: JsValue -> JsValue,
    validateState: JsValue -> JsValue,
    validateLastChecked: JsValue -> JsValue,
    isFileType: (string, string) -> bool)

  /** A real HMAC-SHA512 hex digest is 128 characters long, so never empty. */
  ghost predicate DigestsNonEmpty(n: Natives) {
    forall m :: n.hmac(n.secret, m) != ""
  }

  /** helpers.hash: the keyed digest of a non-empty string, `false` for
      anything else. */
  function Hash(n: Natives, v: JsValue): (r: JsValue)
    ensures r == Bool(false) <==> !(v.Str? && v.s != "")
    ensures r != Bool(false) ==> r == Str(n.hmac(n.secret, v.s))
  {
    if v.Str? && |v.s| > 0 then Str(n.hmac(n.secret, v.s)) else Bool(false)
  }

  /** With a real digest, the hash of a value is truthy exactly when the value
      is a non-empty string. */
  lemma HashTruthy(n: Natives, v: JsValue)
    requires DigestsNonEmpty(n)
    ensures Truthy(Hash(n, v)) <==> v.Str? && v.s != ""
  {
    if v.Str? && v.s != "" {
      assert n.hmac(n.secret, v.s) != "";
    }
  }

  /** helpers.validatePhone: the trimmed phone when the argument is a string
      whose trimmed length is 10, `false` otherwise. */
  function ValidatePhone(phone: JsValue): (r: JsValue)
    ensures r == Bool(false) || r.Str?
    ensures r.Str? <==> phone.Str? && |Trim(phone.s)| == 10
    ensures r.Str? ==> |r.s| == 10 && IsStripped(r.s, IsWhitespace)
  {
    if phone.Str? && |Trim(phone.s)| == 10 then Str(Trim(phone.s)) else Bool(false)
  }

  /** A validated phone is its own validation: applying validatePhone again
      returns it unchanged. */
  lemma {:induction false} ValidatePhoneIdempotent(phone: JsValue)
    requires ValidatePhone(phone).Str?
    ensures ValidatePhone(ValidatePhone(phone)) == ValidatePhone(phone)
  {
    TrimIdempotent(phone.s);
  }

  /** A validated phone is truthy, so it passes the handlers' `if (isPhone)`. */
  lemma ValidPhoneTruthy(phone: JsValue)
    ensures Truthy(ValidatePhone(phone)) <==> ValidatePhone(phone).Str?
  {
  }

  /** `{'Error': e}`, the object the helpers and handlers report errors with. */
  function ErrorObject(e: JsValue): JsValue {
    Obj(map["Error" := e])
  }

  /** helpers.parseJsonToObject: JSON.parse of `String(v)`, never throwing;
      a SyntaxError is returned inside `{'Error': error}`. */
  function ParseJsonToObject(n: Natives, v: JsValue): (r: JsValue)
    ensures n.jsonParse(ToJsString(v)).Ok? ==> r == n.jsonParse(ToJsString(v)).value
    ensures n.jsonParse(ToJsString(v)).Err? ==> r == ErrorObject(n.jsonParse(ToJsString(v)).error)
  {
    match n.jsonParse(ToJsString(v))
    case Ok(parsed) => parsed
    case Err(e) => ErrorObject(e)
  }

  /** helpers.createRandomString as written: the chained assignment
      `helpers.createRandomString = helpers.parseJsonToObject = ...` binds it
      to the very function parseJsonToObject is bound to. */
  function CreateRandomStringAsWritten(n: Natives, strLength: JsValue): (r: JsValue)
    ensures r == ParseJsonToObject(n, strLength)
  {
    ParseJsonToObject(n, strLength)
  }

  /** A JSON parser that reads the numeral "20" as the number 20. */
  predicate ParsesTwenty(n: Natives) {
    n.jsonParse("20") == Ok(Num(20))
  }

  /** As written, `createRandomString(20)` is JSON.parse("20"): every token
      gets the id 20, not a random string. */
  lemma RandomStringIsAlwaysTwenty(n: Natives)
    requires ParsesTwenty(n)
    ensures CreateRandomStringAsWritten(n, Num(20)) == Num(20)
  {
    assert NatToString(20) == NatToString(2) + [DigitChar(0)];
    assert ToJsString(Num(20)) == "20";
  }

  /** The characters a random string is drawn from. */
  const RandomAlphabet := "abcdefghijklmnopqrstuvwxyz0123456789"

  /** The random-string helper the token handler evidently expects: for a
      positive length, that many characters drawn from the alphabet;
      `false` otherwise. */
  function CreateRandomString(n: Natives, strLength: JsValue): (r: JsValue)
    ensures r.Str? <==> strLength.Num? && strLength.n > 0
    ensures !r.Str? ==> r == Bool(false)
    ensures r.Str? ==> |r.s| == strLength.n && forall i :: 0 <= i < |r.s| ==> r.s[i] in RandomAlphabet
  {
    if strLength.Num? && strLength.n > 0 then
      Str(seq(strLength.n, i requires 0 <= i < strLength.n =>
        RandomAlphabet[n.random(i) % |RandomAlphabet|]))
    else Bool(false)
  }
}
