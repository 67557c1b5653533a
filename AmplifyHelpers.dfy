/**
 * The parameter check of utils/amplify-helpers.ts: `validateAmplifyParams`
 * walks the required keys in order and throws on the first one whose value
 * is `undefined` or `null`; `safeAmplifyCall` runs that check and only then
 * calls the wrapped function, passing its result or its error through.
 */
module AmplifyHelpers {
  import opened Outcomes

  type Params = map<string, Value>

  /** The message thrown for a missing required key. */
  function MissingMessage(key: string): string {
    "Required parameter '" + key + "' is missing or null"
  }

  /** The position of the first required key whose value is `undefined` or `null`, if any. */
  function FirstMissing(params: Params, requiredKeys: seq<string>): (r: Option<nat>)
    ensures r.None? <==> forall i :: 0 <= i < |requiredKeys| ==> IsPresent(Lookup(params, requiredKeys[i]))
    ensures r.Some? ==> r.value < |requiredKeys| && !IsPresent(Lookup(params, requiredKeys[r.value]))
    ensures r.Some? ==> forall i :: 0 <= i < r.value ==> IsPresent(Lookup(params, requiredKeys[i]))
  {
    if requiredKeys == [] then None
    else if !IsPresent(Lookup(params, requiredKeys[0])) then Some(0)
    else match FirstMissing(params, requiredKeys[1..])
         case None => None
         case Some(i) => Some(i + 1)
  }

  /** What `validateAmplifyParams` returns or throws. */
  function Validation(params: Params, requiredKeys: seq<string>): Call<Params> {
    match FirstMissing(params, requiredKeys)
    case None => Returned(params)
    case Some(i) => Threw(MissingMessage(requiredKeys[i]))
  }

  /** `validateAmplifyParams`: a `for` loop over the keys with an early throw. */
  method ValidateAmplifyParams(params: Params, requiredKeys: seq<string>) returns (r: Call<Params>)
    ensures r == Validation(params, requiredKeys)
    ensures r.Returned? <==> forall i :: 0 <= i < |requiredKeys| ==> IsPresent(Lookup(params, requiredKeys[i]))
    ensures r.Returned? ==> r.value == params
  {
    for i := 0 to |requiredKeys|
      invariant forall j :: 0 <= j < i ==> IsPresent(Lookup(params, requiredKeys[j]))
    {
      if Lookup(params, requiredKeys[i]) == Undefined || Lookup(params, requiredKeys[i]) == Null {
        FirstMissingIs(params, requiredKeys, i);
        return Threw(MissingMessage(requiredKeys[i]));
      }
    }
    return Returned(params);
  }

  /** A missing key with every earlier key present is the first missing one. */
  lemma FirstMissingIs(params: Params, requiredKeys: seq<string>, i: nat)
    requires i < |requiredKeys| && !IsPresent(Lookup(params, requiredKeys[i]))
    requires forall j :: 0 <= j < i ==> IsPresent(Lookup(params, requiredKeys[j]))
    ensures FirstMissing(params, requiredKeys) == Some(i)
  {
  }

  /**
   * The error names the first offending key in the order of `requiredKeys`:
   * every key before it is present, and its own value is not.
   */
  lemma ValidationNamesFirstMissing(params: Params, requiredKeys: seq<string>)
    ensures Validation(params, requiredKeys).Threw? <==>
              exists i :: 0 <= i < |requiredKeys| && !IsPresent(Lookup(params, requiredKeys[i]))
    ensures Validation(params, requiredKeys).Threw? ==>
              exists i :: 0 <= i < |requiredKeys| && !IsPresent(Lookup(params, requiredKeys[i]))
                && (forall j :: 0 <= j < i ==> IsPresent(Lookup(params, requiredKeys[j])))
                && Validation(params, requiredKeys).message == MissingMessage(requiredKeys[i])
  {
    var r := FirstMissing(params, requiredKeys);
    if r.Some? {
      assert !IsPresent(Lookup(params, requiredKeys[r.value]));
    }
  }

  /**
   * Only the listed keys are inspected: two parameter objects that agree on
   * them validate alike, whatever else they hold.
   */
  lemma {:induction false} OnlyListedKeysInspected(p: Params, q: Params, requiredKeys: seq<string>)
    requires forall i :: 0 <= i < |requiredKeys| ==> Lookup(p, requiredKeys[i]) == Lookup(q, requiredKeys[i])
    ensures FirstMissing(p, requiredKeys) == FirstMissing(q, requiredKeys)
    ensures Validation(p, requiredKeys).Threw? == Validation(q, requiredKeys).Threw?
    ensures Validation(p, requiredKeys).Threw? ==> Validation(p, requiredKeys) == Validation(q, requiredKeys)
  {
    if requiredKeys != [] {
      OnlyListedKeysInspected(p, q, requiredKeys[1..]);
    }
  }

  /** An empty list of required keys always validates. */
  lemma NoKeysAlwaysValid(params: Params)
    ensures Validation(params, []) == Returned(params)
  {
  }

  /** One call of `safeAmplifyCall`: the arguments `fn` was called with, and the outcome. */
  datatype SafeCall<T> = SafeCall(calls: seq<Params>, outcome: Call<T>)

  /**
   * `safeAmplifyCall(fn, params, requiredKeys)`: `fn` is called only after a
   * successful check, with the checked parameters; its result is returned
   * and its error rethrown as they are, and so is the check's error.
   */
  function SafeAmplifyCall<T>(fn: Params -> Call<T>, params: Params, requiredKeys: seq<string>): (r: SafeCall<T>)
    ensures Validation(params, requiredKeys).Threw? ==>
              r.calls == [] && r.outcome == Threw(Validation(params, requiredKeys).message)
    ensures Validation(params, requiredKeys).Returned? ==> r.calls == [params] && r.outcome == fn(params)
    ensures |r.calls| <= 1
  {
    match Validation(params, requiredKeys)
    case Threw(message) => SafeCall([], Threw(message))
    case Returned(validated) =>
      match fn(validated)
      case Returned(v) => SafeCall([validated], Returned(v))
      case Threw(message) => SafeCall([validated], Threw(message))
  }

  /** With the default `requiredKeys = []`, `fn` is called exactly once, with `params`. */
  lemma DefaultKeysCallOnce<T>(fn: Params -> Call<T>, params: Params)
    ensures SafeAmplifyCall(fn, params, []).calls == [params]
    ensures SafeAmplifyCall(fn, params, []).outcome == fn(params)
  {
  }

  /** `fn` is never called when a required key is missing. */
  lemma MissingKeyNoCall<T>(fn: Params -> Call<T>, params: Params, requiredKeys: seq<string>, i: nat)
    requires i < |requiredKeys| && !IsPresent(Lookup(params, requiredKeys[i]))
    ensures SafeAmplifyCall(fn, params, requiredKeys).calls == []
    ensures SafeAmplifyCall(fn, params, requiredKeys).outcome.Threw?
  {
    assert FirstMissing(params, requiredKeys).Some?;
  }
}
