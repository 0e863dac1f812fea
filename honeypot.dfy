/**
 * The spam-trap form check (app/utils/honeypot.server.ts). AES decryption, the clock and the
 * string-to-number conversion are foreign; they are passed in as an `Env`.
 */
module HoneypotServer {
  import opened Wrappers
  import UrlUtils

  /** `HonetpotConfig`; every member is optional. */
  datatype Config = Config(
    randomizeNameFieldName: Option<bool>,
    nameFieldName: Option<string>,
    validFromFieldName: Option<string>,
    validFromTimestamp: Option<real>,
    encryptionSeed: Option<string>)

  /** An empty configuration (`protected config = {}`). */
  const EmptyConfig: Config := Config(None, None, None, None, None)

  const DefaultNameFieldName: string := "honeypot"
  const DefaultValidFromFieldName: string := "honeypot_from"

  /** A form entry value: a string or an uploaded file. */
  datatype EntryValue = Text(s: string) | File

  /** Form data as an ordered list of entries; a key may repeat. */
  type FormData = seq<(string, EntryValue)>

  /** `formData.has(name)`. */
  predicate Has(form: FormData, name: string) {
    exists i :: 0 <= i < |form| && form[i].0 == name
  }

  /** `formData.get(name)`: the first value under that key, or null. */
  function Get(form: FormData, name: string): (r: Option<EntryValue>)
    ensures r.Some? <==> Has(form, name)
  {
    if |form| == 0 then None
    else if form[0].0 == name then Some(form[0].1)
    else
      var r := Get(form[1..], name);
      assert Has(form[1..], name) ==> Has(form, name) by {
        if Has(form[1..], name) {
          var i :| 0 <= i < |form[1..]| && form[1..][i].0 == name;
          assert form[i + 1].0 == name;
        }
      }
      assert Has(form, name) && form[0].0 != name ==> Has(form[1..], name) by {
        if Has(form, name) && form[0].0 != name {
          var i :| 0 <= i < |form| && form[i].0 == name;
          assert form[1..][i - 1].0 == name;
        }
      }
      r
  }

  /** A JavaScript number as `Number(string)` may produce it. */
  datatype JsNumber = NaN | PositiveInfinity | NegativeInfinity | Finite(r: real)

  const MaxSafeInteger: real := 9007199254740991.0

  /**
   * The foreign operations: `Date.now()`, the value `randomValue()` returns, AES decryption
   * of a form value under a seed (Failure when the library throws), and `Number(string)`.
   */
  datatype Env = Env(
    now: real,
    random: string,
    decrypt: (EntryValue, string) -> Result<string, string>,
    toNumber: string -> JsNumber)

  /** What `check` throws: a `SpamError` with its message, or any other error, passed on unchanged. */
  datatype Thrown = SpamError(message: string) | OtherError(reason: string)

  /** `isValidTimeStamp`. */
  predicate IsValidTimeStamp(t: JsNumber) {
    match t
    case NaN => false
    case NegativeInfinity => false
    case PositiveInfinity => false
    case Finite(r) => !(r <= 0.0) && !(r >= MaxSafeInteger)
  }

  /** `isFuture`: after the clock; NaN compares false. */
  predicate IsFuture(t: JsNumber, now: real) {
    match t
    case NaN => false
    case NegativeInfinity => false
    case PositiveInfinity => true
    case Finite(r) => r > now
  }

  /** A timestamp is valid exactly when it is a finite number strictly between 0 and MAX_SAFE_INTEGER. */
  lemma ValidTimeStampMeaning(t: JsNumber)
    ensures IsValidTimeStamp(t) <==> t.Finite? && 0.0 < t.r < MaxSafeInteger
  {
  }

  class Honeypot {
    const config: Config

    constructor (config: Option<Config>)
      ensures this.config == config.GetOr(EmptyConfig)
    {
      this.config := config.GetOr(EmptyConfig);
    }

    /** The getter `nameFieldName`; `random` stands for `randomValue()`. */
    function NameFieldName(random: string): (r: string)
      ensures config.randomizeNameFieldName != Some(true) ==> r == config.nameFieldName.GetOr(DefaultNameFieldName)
      ensures config.randomizeNameFieldName == Some(true) ==>
                r == config.nameFieldName.GetOr(DefaultNameFieldName) + "_" + random
    {
      var fieldName := config.nameFieldName.GetOr(DefaultNameFieldName);
      if config.randomizeNameFieldName != Some(true) then fieldName else fieldName + "_" + random
    }

    /** The getter `validFromFieldName`. */
    function ValidFromFieldName(): (r: string)
      ensures config.validFromFieldName.None? ==> r == "honeypot_from"
      ensures config.validFromFieldName.Some? ==> r == config.validFromFieldName.value
    {
      config.validFromFieldName.GetOr(DefaultValidFromFieldName)
    }

    /** The getter `validFromTimestamp`. */
    function ValidFromTimestamp(env: Env): (r: real)
      ensures config.validFromTimestamp.None? ==> r == env.now
      ensures config.validFromTimestamp.Some? ==> r == config.validFromTimestamp.value
    {
      config.validFromTimestamp.GetOr(env.now)
    }

    /** The getter `encryptionSeed`: the configured seed, else a fresh random value. */
    function EncryptionSeed(env: Env): (r: string)
      ensures config.encryptionSeed.None? ==> r == env.random
      ensures config.encryptionSeed.Some? ==> r == config.encryptionSeed.value
    {
      config.encryptionSeed.GetOr(env.random)
    }

    /** `shouldCheckHoneypot`. */
    predicate ShouldCheckHoneypot(form: FormData, nameFieldName: string) {
      Has(form, nameFieldName) || Has(form, ValidFromFieldName())
    }

    /** Entry `i` is the first one whose key starts with `prefix`. */
    static predicate FirstMatchAt(form: FormData, prefix: string, i: int) {
      && 0 <= i < |form|
      && UrlUtils.StartsWith(form[i].0, prefix)
      && forall j :: 0 <= j < i ==> !UrlUtils.StartsWith(form[j].0, prefix)
    }

    /** The first form key (in form order) that starts with `nameFieldName`. */
    static function FirstKeyStartingWith(form: FormData, nameFieldName: string): (r: Option<string>)
      ensures r.Some? ==> UrlUtils.StartsWith(r.value, nameFieldName)
      ensures r.Some? ==> exists i :: FirstMatchAt(form, nameFieldName, i) && form[i].0 == r.value
      ensures r.None? <==> forall i :: 0 <= i < |form| ==> !UrlUtils.StartsWith(form[i].0, nameFieldName)
    {
      if |form| == 0 then None
      else if UrlUtils.StartsWith(form[0].0, nameFieldName) then
        assert FirstMatchAt(form, nameFieldName, 0);
        Some(form[0].0)
      else
        var r := FirstKeyStartingWith(form[1..], nameFieldName);
        assert r.Some? ==> exists i :: FirstMatchAt(form, nameFieldName, i) && form[i].0 == r.value by {
          if r.Some? {
            var i :| FirstMatchAt(form[1..], nameFieldName, i) && form[1..][i].0 == r.value;
            assert FirstMatchAt(form, nameFieldName, i + 1) by {
              forall j | 0 <= j < i + 1
                ensures !UrlUtils.StartsWith(form[j].0, nameFieldName)
              {
                if j > 0 {
                  assert form[j] == form[1..][j - 1];
                }
              }
            }
          }
        }
        assert r.None? <==> forall i :: 0 <= i < |form| ==> !UrlUtils.StartsWith(form[i].0, nameFieldName) by {
          if r.None? {
            forall i | 0 <= i < |form|
              ensures !UrlUtils.StartsWith(form[i].0, nameFieldName)
            {
              if i > 0 {
                assert form[i] == form[1..][i - 1];
              }
            }
          }
        }
        r
    }

    /** `getRandomizedNameFieldName`: a `for ... of` over the keys with an early return. */
    method GetRandomizedNameFieldName(nameFieldName: string, form: FormData) returns (r: Option<string>)
      ensures r == FirstKeyStartingWith(form, nameFieldName)
    {
      var i := 0;
      while i < |form|
        invariant 0 <= i <= |form|
        invariant FirstKeyStartingWith(form, nameFieldName) == FirstKeyStartingWith(form[i..], nameFieldName)
      {
        var key := form[i].0;
        if UrlUtils.StartsWith(key, nameFieldName) {
          return Some(key);
        }
        assert form[i..][1..] == form[i + 1..];
        i := i + 1;
      }
      return None;
    }

    /**
     * The honeypot field name `check` inspects: the configured (or default) name, or, when names
     * are randomized, the first form key that starts with it; a first match that is the empty
     * string cannot differ from the name it extends.
     */
    function CheckedName(form: FormData): (r: string)
      ensures config.randomizeNameFieldName != Some(true) ==> r == config.nameFieldName.GetOr(DefaultNameFieldName)
      ensures var base := config.nameFieldName.GetOr(DefaultNameFieldName);
              config.randomizeNameFieldName == Some(true) ==>
                && ((forall i :: 0 <= i < |form| ==> !UrlUtils.StartsWith(form[i].0, base)) ==> r == base)
                && ((exists i :: 0 <= i < |form| && UrlUtils.StartsWith(form[i].0, base)) ==>
                      exists i :: FirstMatchAt(form, base, i) && form[i].0 == r)
    {
      var base := config.nameFieldName.GetOr(DefaultNameFieldName);
      if config.randomizeNameFieldName == Some(true) then
        var actual := FirstKeyStartingWith(form, base);
        if actual.Some? && actual.value != "" then actual.value else base
      else base
    }

    /** The guards of `check` as one expression; `check` is proved to compute it. */
    function CheckSpec(form: FormData, env: Env): Outcome<Thrown> {
      var name := CheckedName(form);
      if !ShouldCheckHoneypot(form, name) then Pass
      else if !Has(form, name) then Fail(SpamError("Missing honeypot input"))
      else if Get(form, name) != Some(Text("")) then Fail(SpamError("Honeypot input not empty"))
      // `!this.config.validFromTimestamp`: unset or zero
      else if config.validFromTimestamp.None? || config.validFromTimestamp.value == 0.0 then Pass
      else
        var validFrom := Get(form, ValidFromFieldName());
        // `!validFrom`: null or the empty string
        if validFrom.None? || validFrom == Some(Text("")) then Fail(SpamError("Missing honeypot valid from input"))
        else
          match env.decrypt(validFrom.value, EncryptionSeed(env))
          case Failure(e) => Fail(OtherError(e))
          case Success(time) =>
            if time == "" then Fail(SpamError("Invalid honeypot valid from input"))
            else if !IsValidTimeStamp(env.toNumber(time)) then Fail(SpamError("Invalid honeypot valid from input"))
            else if IsFuture(env.toNumber(time), env.now) then Fail(SpamError("Honeypot valid from is in future"))
            else Pass
    }

    /** `check(formData)`. Pass is a normal return; Fail is the thrown error. */
    method Check(form: FormData, env: Env) returns (outcome: Outcome<Thrown>)
      ensures outcome == CheckSpec(form, env)
    {
      var nameFieldName := config.nameFieldName.GetOr(DefaultNameFieldName);
      if config.randomizeNameFieldName == Some(true) {
        var actualName := GetRandomizedNameFieldName(nameFieldName, form);
        if actualName.Some? && actualName.value != "" {
          nameFieldName := actualName.value;
        }
      }
      if !ShouldCheckHoneypot(form, nameFieldName) {
        return Pass;
      }
      if !Has(form, nameFieldName) {
        return Fail(SpamError("Missing honeypot input"));
      }
      var honeypotValue := Get(form, nameFieldName);
      if honeypotValue != Some(Text("")) {
        return Fail(SpamError("Honeypot input not empty"));
      }
      if config.validFromTimestamp.None? || config.validFromTimestamp.value == 0.0 {
        return Pass;
      }
      var validFrom := Get(form, ValidFromFieldName());
      if validFrom.None? || validFrom == Some(Text("")) {
        return Fail(SpamError("Missing honeypot valid from input"));
      }
      var decrypted := env.decrypt(validFrom.value, EncryptionSeed(env));
      if decrypted.Failure? {
        return Fail(OtherError(decrypted.error));
      }
      var time := decrypted.value;
      if time == "" {
        return Fail(SpamError("Invalid honeypot valid from input"));
      }
      if !IsValidTimeStamp(env.toNumber(time)) {
        return Fail(SpamError("Invalid honeypot valid from input"));
      }
      if IsFuture(env.toNumber(time), env.now) {
        return Fail(SpamError("Honeypot valid from is in future"));
      }
      return Pass;
    }

    /** A form carrying neither trap field is accepted without further inspection. */
    lemma AcceptsFormsWithoutTrap(form: FormData, env: Env)
      requires !Has(form, CheckedName(form)) && !Has(form, ValidFromFieldName())
      ensures CheckSpec(form, env) == Pass
    {
    }

    /** A filled-in trap field is rejected as spam, whatever the rest of the form holds. */
    lemma RejectsFilledTrap(form: FormData, env: Env)
      requires Has(form, CheckedName(form))
      ensures CheckSpec(form, env) == Fail(SpamError("Honeypot input not empty")) <==>
              Get(form, CheckedName(form)) != Some(Text(""))
    {
    }

    /** A form with the valid-from field but without the trap misses the trap input. */
    lemma RejectsMissingTrap(form: FormData, env: Env)
      requires !Has(form, CheckedName(form)) && Has(form, ValidFromFieldName())
      ensures CheckSpec(form, env) == Fail(SpamError("Missing honeypot input"))
    {
    }

    /** Without a configured timestamp the valid-from field is never examined. */
    lemma NoTimestampNoValidFrom(form: FormData, env: Env, env': Env)
      requires config.validFromTimestamp.None?
      ensures CheckSpec(form, env) == CheckSpec(form, env')
      ensures CheckSpec(form, env).Fail? ==> CheckSpec(form, env).error.SpamError?
    {
    }

    /**
     * Without a configured timestamp, a form that carries the trap field and leaves it empty is
     * accepted, whatever the valid-from field holds and whatever the environment does.
     */
    lemma AcceptsEmptyTrapWithoutTimestamp(form: FormData, env: Env)
      requires config.validFromTimestamp.None?
      requires Has(form, CheckedName(form)) && Get(form, CheckedName(form)) == Some(Text(""))
      ensures CheckSpec(form, env) == Pass
    {
    }

    /**
     * With a timestamp configured and an empty trap, the valid-from guards apply in order:
     * missing value, empty decryption, invalid number, future time.
     */
    lemma ValidFromGuards(form: FormData, env: Env)
      requires config.validFromTimestamp.Some? && config.validFromTimestamp.value != 0.0
      requires Has(form, CheckedName(form)) && Get(form, CheckedName(form)) == Some(Text(""))
      ensures var validFrom := Get(form, ValidFromFieldName());
              var outcome := CheckSpec(form, env);
              && (validFrom.None? || validFrom == Some(Text("")) ==> outcome == Fail(SpamError("Missing honeypot valid from input")))
              && (validFrom.Some? && validFrom != Some(Text("")) ==>
                    var d := env.decrypt(validFrom.value, EncryptionSeed(env));
                    && (d == Success("") ==> outcome == Fail(SpamError("Invalid honeypot valid from input")))
                    && (d.Success? && d.value != "" && !IsValidTimeStamp(env.toNumber(d.value)) ==>
                          outcome == Fail(SpamError("Invalid honeypot valid from input")))
                    && (d.Success? && d.value != "" && IsValidTimeStamp(env.toNumber(d.value)) ==>
                          (outcome == Pass <==> !IsFuture(env.toNumber(d.value), env.now))))
    {
    }
  }

  /**
   * With randomized names and the default names, a form whose valid-from field comes before
   * the randomized trap field is taken to have a filled-in trap: "honeypot_from" is the
   * first key starting with "honeypot".
   */
  lemma RandomizedNameMeetsValidFromFirst(h: Honeypot, env: Env)
    requires h.config == Config(Some(true), None, None, None, None)
    ensures var form := [("honeypot_from", Text("secret")), ("honeypot_abc", Text(""))];
            h.CheckedName(form) == "honeypot_from" &&
            h.CheckSpec(form, env) == Fail(SpamError("Honeypot input not empty"))
  {
    var form := [("honeypot_from", Text("secret")), ("honeypot_abc", Text(""))];
    assert UrlUtils.StartsWith(form[0].0, "honeypot");
    assert Has(form, "honeypot_from") by { assert form[0].0 == "honeypot_from"; }
  }

  /** `makeHoneypot(seed)`: a honeypot whose configuration holds only the seed. */
  method MakeHoneypot(encryptionSeed: string) returns (h: Honeypot)
    ensures h.config == Config(None, None, None, None, Some(encryptionSeed))
    ensures h.config.validFromTimestamp.None? && h.config.randomizeNameFieldName.None?
  {
    h := new Honeypot(Some(Config(None, None, None, None, Some(encryptionSeed))));
  }

  /**
   * A honeypot from `makeHoneypot` checks the fixed name "honeypot" and no timestamp: a form
   * with that field empty passes, and one with that field filled in is spam.
   */
  lemma MadeHoneypotChecksTrapOnly(h: Honeypot, encryptionSeed: string, form: FormData, env: Env)
    requires h.config == Config(None, None, None, None, Some(encryptionSeed))
    requires Has(form, DefaultNameFieldName)
    ensures h.CheckSpec(form, env) == Pass <==> Get(form, DefaultNameFieldName) == Some(Text(""))
    ensures h.CheckSpec(form, env) != Pass ==> h.CheckSpec(form, env) == Fail(SpamError("Honeypot input not empty"))
  {
    assert h.CheckedName(form) == DefaultNameFieldName;
    if Get(form, DefaultNameFieldName) == Some(Text("")) {
      h.AcceptsEmptyTrapWithoutTimestamp(form, env);
    }
  }

  /** What `checkHoneypot` does with the outcome of `check`. */
  datatype Response = Response(status: nat, body: string)
  datatype CheckThrown = ThrownResponse(response: Response) | Rethrown(error: Thrown)

  function CheckHoneypotOutcome(outcome: Outcome<Thrown>): (r: Outcome<CheckThrown>)
    ensures outcome == Pass <==> r == Pass
    ensures outcome.Fail? && outcome.error.SpamError? ==>
              r == Fail(ThrownResponse(Response(400, "Form not submitted properly")))
    ensures outcome.Fail? && outcome.error.OtherError? ==> r == Fail(Rethrown(outcome.error))
  {
    match outcome
    case Pass => Pass
    case Fail(e) =>
      if e.SpamError? then Fail(ThrownResponse(Response(400, "Form not submitted properly")))
      else Fail(Rethrown(e))
  }

  /** `checkHoneypot(honeypot, formData)`. */
  method CheckHoneypot(honeypot: Honeypot, form: FormData, env: Env) returns (r: Outcome<CheckThrown>)
    ensures r == CheckHoneypotOutcome(honeypot.CheckSpec(form, env))
  {
    var outcome := honeypot.Check(form, env);
    r := CheckHoneypotOutcome(outcome);
  }

  /** The default names collide: "honeypot_from" itself starts with "honeypot". */
  lemma ValidFromStartsWithName()
    ensures UrlUtils.StartsWith(DefaultValidFromFieldName, DefaultNameFieldName)
  {
  }
}
