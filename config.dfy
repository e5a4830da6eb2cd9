/** config.js: the two deployment environments and the choice between them
    made from the NODE_ENV environment variable. */
module Config {
  import opened Text
  import opened Js

  datatype Environment = Environment(
    httpPort: nat,
    httpsPort: nat,
    envName: string,
    hashingSecret: string,
    maxChecks: nat)

  /** The default environment. */
  const Staging := Environment(3000, 3001, "staging", "thisIsASecret", 5)

  const Production := Environment(5000, 5001, "production", "thisIsAnotherSecret", 5)

  /** What `module.exports` becomes: one of the environments, or (as written)
      the object that `environments['__proto__']` reaches, Object.prototype,
      which carries none of the configuration fields. */
  datatype Exported = Env(env: Environment) | ObjectPrototype

  /** The lookup key: NODE_ENV lower-cased when it is a string, else "". */
  function CurrentEnvName(nodeEnv: JsValue): string {
    if nodeEnv.Str? then ToLower(nodeEnv.s) else ""
  }

  /** `environments[name]` where `typeof` gives 'object'. `environments` is a
      plain object literal, so besides its two own keys the lookup also
      reaches Object.prototype through the key "__proto__"; every other
      inherited member is a function, which the `typeof` test rejects. */
  function LookupAsWritten(name: string): Option<Exported> {
    if name == "staging" then Some(Env(Staging))
    else if name == "production" then Some(Env(Production))
    else if name == "__proto__" then Some(ObjectPrototype)
    else None
  }

  /** The environment config.js exports, as written. */
  function SelectAsWritten(nodeEnv: JsValue): (e: Exported)
    ensures e == ObjectPrototype <==> CurrentEnvName(nodeEnv) == "__proto__"
  {
    match LookupAsWritten(CurrentEnvName(nodeEnv))
    case Some(found) => found
    case None => Env(Staging)
  }

  /** Setting NODE_ENV to "__proto__" (in any letter case) exports
      Object.prototype instead of falling back to staging. */
  lemma ProtoKeyEscapesFallback()
    ensures SelectAsWritten(Str("__PROTO__")) == ObjectPrototype
  {
    assert ToLower("__PROTO__") == "__proto__";
  }

  /** The environment selection with the fallback the code intends: only the
      object's own keys are environments, anything else selects staging. */
  function Select(nodeEnv: JsValue): (e: Environment)
    ensures e == Staging || e == Production
    ensures e == Production <==> CurrentEnvName(nodeEnv) == "production"
  {
    var name := CurrentEnvName(nodeEnv);
    if name == "production" then Production else Staging
  }

  /** The corrected selection agrees with the code on every name except the
      one that reaches the prototype. */
  lemma SelectAgreesWithSource(nodeEnv: JsValue)
    requires CurrentEnvName(nodeEnv) != "__proto__"
    ensures SelectAsWritten(nodeEnv) == Env(Select(nodeEnv))
  {
  }

  /** NODE_ENV is matched case-insensitively. */
  lemma UpperCaseSelectsProduction()
    ensures Select(Str("PRODUCTION")) == Production
    ensures Select(Str("Staging")) == Staging
  {
    assert ToLower("PRODUCTION") == "production";
  }

  /** An unset or non-string NODE_ENV selects staging. */
  lemma UnsetSelectsStaging(nodeEnv: JsValue)
    requires !nodeEnv.Str?
    ensures Select(nodeEnv) == Staging
  {
  }

  /** Any name that is not, ignoring case, "production" falls back to staging;
      as written, so does every such name except "__proto__". */
  lemma UnknownNameSelectsStaging(name: string)
    requires ToLower(name) != "production"
    ensures Select(Str(name)) == Staging
    ensures ToLower(name) != "__proto__" ==> SelectAsWritten(Str(name)) == Env(Staging)
  {
    if ToLower(name) != "__proto__" {
      SelectAgreesWithSource(Str(name));
    }
  }

  /** The two environments' ports and check quota. */
  lemma EnvironmentConstants()
    ensures Staging.httpPort == 3000 && Staging.httpsPort == 3001
    ensures Production.httpPort == 5000 && Production.httpsPort == 5001
    ensures Staging.maxChecks == 5 && Production.maxChecks == 5
    ensures Staging.hashingSecret != Production.hashingSecret
  {
  }
}
