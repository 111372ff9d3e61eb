/**
 * The parameter table of the model: its defaults, the keyword overrides applied by
 * `_load_params` (each override cast to the type of the default it replaces), the `_options`
 * snapshot of the defaults, and the `key=value` command-line parsing of `main`.
 */
module Params {
  import opened Wrappers
  import opened Floats
  import opened Literals

  /** A parameter value: the Python types the table holds. */
  datatype Value = VBool(b: bool) | VInt(n: int) | VFloat(x: Float) | VText(s: string)

  /** What a cast raises: `ValueError` for a text that is no literal or for NaN, `OverflowError` for an infinity. */
  datatype ConvertError = InvalidLiteral | Overflow

  /** Both values have the same Python type. */
  predicate SameKind(a: Value, b: Value)
  {
    (a.VBool? && b.VBool?) || (a.VInt? && b.VInt?) || (a.VFloat? && b.VFloat?) || (a.VText? && b.VText?)
  }

  /** Every entry of `p` has the type of the entry of `d` under the same key. */
  predicate WellTyped(d: map<string, Value>, p: map<string, Value>)
  {
    p.Keys == d.Keys && forall k :: k in p ==> SameKind(d[k], p[k])
  }

  /** The parameter table before any keyword argument is applied. */
  function Defaults(): map<string, Value>
  {
    map[
      "verbose" := VBool(true),
      "dt" := VFloat(Finite(0.001)),
      "stim_start" := VFloat(Finite(0.0)),
      "tstop" := VFloat(Finite(50.0)),
      "RunID" := VInt(-1),
      "DD" := VBool(true),
      "stim_target" := VText("STN"),
      "Cm" := VFloat(Finite(0.0001)),
      "cDBS" := VBool(false),
      "cDBS_f" := VFloat(Finite(130.0)),
      "cDBS_amp" := VFloat(Finite(3.0)),
      "cDBS_width" := VFloat(Finite(60.0)),
      "pDBS" := VBool(false),
      "pDBS_phase" := VFloat(Finite(2.24)),
      "pDBS_amp" := VFloat(Finite(2.38)),
      "pDBS_width" := VInt(60),
      "pDBS_ref_period" := VFloat(Finite(0.3)),
      "pDBS_power_thr" := VFloat(Finite(-28.57)),
      "state_target" := VText("p1"),
      "swift_f" := VInt(29),
      "swift_tau_s" := VFloat(Finite(0.2397)),
      "swift_c" := VInt(10),
      "swift_s2f" := VInt(5)
    ]
  }

  /** `int(x)` on a finite float: the integer part, rounded toward zero. */
  function Truncate(x: real): (t: int)
    ensures x >= 0.0 ==> 0.0 <= t as real <= x && x < t as real + 1.0
    ensures x < 0.0 ==> x <= t as real <= 0.0 && t as real - 1.0 < x
  {
    if x >= 0.0 then x.Floor else -((-x).Floor)
  }

  /** Python's `bool(v)`: the truth value of `v`. */
  function Truth(v: Value): bool
  {
    match v
    case VBool(b) => b
    case VInt(n) => n != 0
    case VFloat(x) => x != Finite(0.0)
    case VText(s) => s != []
  }

  /**
   * `type(like)(v)`: the cast of `v` to the type of `like`. `floatText` is `str` of a float, whose
   * shortest-round-trip digits are not modelled.
   */
  function Convert(like: Value, v: Value, floatText: Float -> string): (r: Result<Value, ConvertError>)
    ensures r.Success? ==> SameKind(like, r.value)
    ensures SameKind(like, v) ==> r == Success(v)
    ensures r.Failure? ==> like.VInt? || like.VFloat?
  {
    match like
    case VBool(_) => Success(VBool(Truth(v)))
    case VInt(_) =>
      (match v
       case VBool(b) => Success(VInt(if b then 1 else 0))
       case VInt(n) => Success(VInt(n))
       case VFloat(x) =>
         (match x
          case Finite(y) => Success(VInt(Truncate(y)))
          case NaN => Failure(InvalidLiteral)
          case _ => Failure(Overflow))
       case VText(s) =>
         (match ParseInt(s)
          case Some(n) => Success(VInt(n))
          case None => Failure(InvalidLiteral)))
    case VFloat(_) =>
      (match v
       case VBool(b) => Success(VFloat(Finite(if b then 1.0 else 0.0)))
       case VInt(n) => Success(VFloat(Finite(n as real)))
       case VFloat(x) => Success(VFloat(x))
       case VText(s) =>
         (match ParseFloat(s)
          case Some(x) => Success(VFloat(x))
          case None => Failure(InvalidLiteral)))
    case VText(_) =>
      (match v
       case VBool(b) => Success(VText(if b then "True" else "False"))
       case VInt(n) => Success(VText(IntToText(n)))
       case VFloat(x) => Success(VText(floatText(x)))
       case VText(s) => Success(VText(s)))
  }

  /** Every key of `keys` that is both an argument and a table entry casts without error. */
  predicate AllCast(params: map<string, Value>, kwargs: map<string, Value>, floatText: Float -> string, keys: set<string>)
  {
    forall k :: k in keys && k in kwargs && k in params ==> Convert(params[k], kwargs[k], floatText).Success?
  }

  /** The table with the arguments under `keys` cast in; all other entries as they were. */
  function Applied(params: map<string, Value>, kwargs: map<string, Value>, floatText: Float -> string, keys: set<string>): (p: map<string, Value>)
    requires AllCast(params, kwargs, floatText, keys)
    ensures p.Keys == params.Keys
  {
    map k | k in params :: if k in keys && k in kwargs then Convert(params[k], kwargs[k], floatText).value else params[k]
  }

  /** Casting in one more argument is updating that one entry. */
  lemma AppliedStep(params: map<string, Value>, kwargs: map<string, Value>, floatText: Float -> string, keys: set<string>, key: string)
    requires AllCast(params, kwargs, floatText, keys)
    requires key in kwargs && key in params && Convert(params[key], kwargs[key], floatText).Success?
    ensures AllCast(params, kwargs, floatText, keys + {key})
    ensures Applied(params, kwargs, floatText, keys + {key})
      == Applied(params, kwargs, floatText, keys)[key := Convert(params[key], kwargs[key], floatText).value]
  {
  }

  /** A key that is no table entry changes nothing. */
  lemma AppliedUnknown(params: map<string, Value>, kwargs: map<string, Value>, floatText: Float -> string, keys: set<string>, key: string)
    requires AllCast(params, kwargs, floatText, keys)
    requires key !in params
    ensures AllCast(params, kwargs, floatText, keys + {key})
    ensures Applied(params, kwargs, floatText, keys + {key}) == Applied(params, kwargs, floatText, keys)
  {
  }

  /** Bookkeeping of a loop that moves `key` from the keys to visit to the keys visited. */
  lemma MoveKey(todo: set<string>, done: set<string>, all: set<string>, known: set<string>, key: string)
    requires todo + done == all && todo !! done && key in todo
    ensures (todo - {key}) + (done + {key}) == all && (todo - {key}) !! (done + {key})
    ensures key !in known ==> (done + {key}) - known == (done - known) + {key}
    ensures key in known ==> (done + {key}) - known == done - known
  {
  }

  /**
   * `process_kwargs`: every keyword argument whose key is in the table replaces that entry, cast
   * to the entry's type; every other key is reported and skipped. A failing cast aborts. The keys
   * are visited in an unspecified order; `ignored` holds the reported keys.
   */
  method ProcessKwargs(params: map<string, Value>, kwargs: map<string, Value>, floatText: Float -> string)
    returns (r: Result<map<string, Value>, ConvertError>, ignored: set<string>)
    ensures r.Success? <==> AllCast(params, kwargs, floatText, kwargs.Keys)
    ensures r.Success? ==> r.value == Applied(params, kwargs, floatText, kwargs.Keys)
    ensures r.Failure? ==> exists k :: k in kwargs && k in params && Convert(params[k], kwargs[k], floatText) == Failure(r.error)
    ensures ignored <= kwargs.Keys - params.Keys
    ensures r.Success? ==> ignored == kwargs.Keys - params.Keys
  {
    var p := params;
    var todo := kwargs.Keys;
    ghost var done: set<string> := {};
    ignored := {};
    while todo != {}
      invariant todo + done == kwargs.Keys && todo !! done
      invariant AllCast(params, kwargs, floatText, done)
      invariant p == Applied(params, kwargs, floatText, done)
      invariant ignored == done - params.Keys
      decreases |todo|
    {
      var key :| key in todo;
      MoveKey(todo, done, kwargs.Keys, params.Keys, key);
      todo := todo - {key};
      if key !in params {
        AppliedUnknown(params, kwargs, floatText, done, key);
        ignored := ignored + {key};
      } else {
        var c := Convert(params[key], kwargs[key], floatText);
        if c.Failure? {
          r := Failure(c.error);
          assert key in kwargs && key in params && Convert(params[key], kwargs[key], floatText) == Failure(r.error);
          return;
        }
        AppliedStep(params, kwargs, floatText, done, key);
        p := p[key := c.value];
      }
      done := done + {key};
    }
    r := Success(p);
  }

  /** What the applied table holds: the cast argument where there is one, the old entry elsewhere, each at its old type. */
  lemma AppliedEntries(params: map<string, Value>, kwargs: map<string, Value>, floatText: Float -> string)
    requires AllCast(params, kwargs, floatText, kwargs.Keys)
    ensures var p := Applied(params, kwargs, floatText, kwargs.Keys);
      WellTyped(params, p)
      && (forall k :: k in params && k !in kwargs ==> p[k] == params[k])
      && (forall k :: k in params && k in kwargs ==> p[k] == Convert(params[k], kwargs[k], floatText).value)
  {
  }

  /**
   * `_load_params` up to the derived entries: `options` is the snapshot of the defaults taken
   * before the keyword arguments are applied, and the table is the defaults with the arguments cast in.
   */
  method LoadParams(kwargs: map<string, Value>, floatText: Float -> string)
    returns (options: map<string, Value>, r: Result<map<string, Value>, ConvertError>, ignored: set<string>)
    ensures options == Defaults()
    ensures r.Success? <==> AllCast(options, kwargs, floatText, kwargs.Keys)
    ensures r.Success? ==> WellTyped(options, r.value)
    ensures r.Success? ==> forall k :: k in options && k !in kwargs ==> r.value[k] == options[k]
    ensures r.Success? ==> forall k :: k in options && k in kwargs ==> r.value[k] == Convert(options[k], kwargs[k], floatText).value
    ensures r.Success? ==> ignored == kwargs.Keys - options.Keys
  {
    options := Defaults();
    r, ignored := ProcessKwargs(options, kwargs, floatText);
    if r.Success? {
      AppliedEntries(options, kwargs, floatText);
    }
  }

  /** How `main` reads the text of one override: booleans in any case, then `int`, then `float`, else the text itself. */
  function ParseValue(text: string): Value
  {
    var l := Lower(text);
    if l == "false" then VBool(false)
    else if l == "true" then VBool(true)
    else match ParseInt(text)
      case Some(n) => VInt(n)
      case None =>
        match ParseFloat(text)
        case Some(x) => VFloat(x)
        case None => VText(text)
  }

  /** An argument that does not split into exactly one key and one value raises `ValueError` when unpacked. */
  datatype ArgError = NotKeyValue(arg: string)

  /** The key and value of one `key=value` argument. */
  function KeyValue(arg: string): (r: Option<(string, string)>)
    ensures r.Some? ==> arg == r.value.0 + "=" + r.value.1
    ensures r.Some? ==> '=' !in r.value.0 && '=' !in r.value.1
  {
    var pieces := Split(arg, '=');
    if |pieces| == 2 then
      SplitTwo(arg, '=');
      Some((pieces[0], pieces[1]))
    else None
  }

  /** A key and a value without `=`, joined by one, are read back as that key and value. */
  lemma KeyValueOfPair(k: string, v: string)
    requires '=' !in k && '=' !in v
    ensures KeyValue(k + "=" + v) == Some((k, v))
  {
    SplitPair(k, v, '=');
  }

  /** An argument has a key and a value exactly when it holds a single `=`. */
  lemma KeyValueOneSeparator(arg: string)
    ensures KeyValue(arg).Some? <==> Occurrences(arg, '=') == 1
  {
    SplitLength(arg, '=');
  }

  /** The dictionary `parse_kwargs` builds from `args`, or the error of its first malformed argument. */
  function Kwargs(args: seq<string>): Result<map<string, Value>, ArgError>
  {
    if args == [] then Success(map[])
    else
      match Kwargs(args[..|args| - 1])
      case Failure(e) => Failure(e)
      case Success(m) =>
        match KeyValue(args[|args| - 1])
        case None => Failure(NotKeyValue(args[|args| - 1]))
        case Some((k, v)) => Success(m[k := ParseValue(v)])
  }

  /** `parse_kwargs` */
  method ParseKwargs(args: seq<string>) returns (r: Result<map<string, Value>, ArgError>)
    ensures r == Kwargs(args)
  {
    var m: map<string, Value> := map[];
    for i := 0 to |args|
      invariant Kwargs(args[..i]) == Success(m)
    {
      assert args[..i + 1][..i] == args[..i];
      match KeyValue(args[i])
      case None =>
        r := Failure(NotKeyValue(args[i]));
        ParseKwargsFailureSticks(args, i + 1);
        return;
      case Some((k, v)) =>
        m := m[k := ParseValue(v)];
    }
    assert args[..|args|] == args;
    r := Success(m);
  }

  /** Once a prefix of the arguments fails, so does every longer prefix, with the same error. */
  lemma {:induction false} ParseKwargsFailureSticks(args: seq<string>, n: nat)
    requires 0 < n <= |args| && Kwargs(args[..n]).Failure?
    ensures Kwargs(args) == Kwargs(args[..n])
    decreases |args| - n
  {
    if n == |args| {
      assert args[..n] == args;
    } else {
      assert args[..n + 1][..n] == args[..n];
      ParseKwargsFailureSticks(args, n + 1);
    }
  }

  /** The arguments all have the form `key=value` exactly when the dictionary is built. */
  lemma {:induction false} KwargsSucceedsOnPairs(args: seq<string>)
    ensures Kwargs(args).Success? <==> forall j :: 0 <= j < |args| ==> KeyValue(args[j]).Some?
  {
    if args != [] {
      var init := args[..|args| - 1];
      KwargsSucceedsOnPairs(init);
      assert forall j :: 0 <= j < |init| ==> init[j] == args[j];
    }
  }

  /** The dictionary is built exactly when every argument holds a single `=`. */
  lemma KwargsSucceeds(args: seq<string>)
    ensures Kwargs(args).Success? <==> forall j :: 0 <= j < |args| ==> Occurrences(args[j], '=') == 1
  {
    KwargsSucceedsOnPairs(args);
    forall j | 0 <= j < |args|
      ensures KeyValue(args[j]).Some? <==> Occurrences(args[j], '=') == 1
    {
      KeyValueOneSeparator(args[j]);
    }
  }

  /** The first malformed argument is the one reported. */
  lemma KwargsFirstError(args: seq<string>, j: nat)
    requires j < |args| && KeyValue(args[j]).None?
    requires forall i :: 0 <= i < j ==> KeyValue(args[i]).Some?
    ensures Kwargs(args) == Failure(NotKeyValue(args[j]))
  {
    var pre := args[..j];
    assert forall i :: 0 <= i < |pre| ==> pre[i] == args[i];
    KwargsSucceedsOnPairs(pre);
    assert args[..j + 1][..j] == pre;
    ParseKwargsFailureSticks(args, j + 1);
  }

  /** The keys of the dictionary are the keys of the arguments. */
  lemma {:induction false} KwargsKeys(args: seq<string>, k: string)
    requires Kwargs(args).Success?
    ensures k in Kwargs(args).value <==>
      exists j :: 0 <= j < |args| && KeyValue(args[j]).Some? && KeyValue(args[j]).value.0 == k
  {
    if args != [] {
      var init := args[..|args| - 1];
      KwargsKeys(init, k);
      assert forall j :: 0 <= j < |init| ==> init[j] == args[j];
      if k in Kwargs(args).value && k !in Kwargs(init).value {
        assert KeyValue(args[|args| - 1]).value.0 == k;
      }
    }
  }

  /** A key given twice takes the value of its last occurrence. */
  lemma {:induction false} KwargsLastWins(args: seq<string>, j: nat)
    requires Kwargs(args).Success?
    requires j < |args| && KeyValue(args[j]).Some?
    requires forall i :: j < i < |args| ==> KeyValue(args[i]).Some? && KeyValue(args[i]).value.0 != KeyValue(args[j]).value.0
    ensures KeyValue(args[j]).value.0 in Kwargs(args).value
    ensures Kwargs(args).value[KeyValue(args[j]).value.0] == ParseValue(KeyValue(args[j]).value.1)
  {
    if j < |args| - 1 {
      var init := args[..|args| - 1];
      assert init[j] == args[j];
      assert forall i :: j < i < |init| ==> init[i] == args[i];
      KwargsLastWins(init, j);
    }
  }

  /** `str(n)` never reads as a boolean: it starts with a digit or a minus sign. */
  lemma IntTextNotBool(n: int)
    ensures Lower(IntToText(n)) != "true" && Lower(IntToText(n)) != "false"
  {
    var t := IntToText(n);
    assert t[0] == '-' || IsDigit(t[0]);
    assert Lower(t)[0] == t[0];
  }

  /** An integer written out on the command line is read back as that integer. */
  lemma ParseValueInt(n: int)
    ensures ParseValue(IntToText(n)) == VInt(n)
  {
    IntTextNotBool(n);
    IntRoundTrip(n);
  }

  /**
   * `key=n` on the command line for an integer or a float parameter sets it to `n`: read as an
   * `int`, then cast to the type of the default.
   */
  lemma IntOverride(like: Value, n: int, floatText: Float -> string)
    requires like.VInt? || like.VFloat?
    ensures Convert(like, ParseValue(IntToText(n)), floatText)
      == Success(if like.VInt? then VInt(n) else VFloat(Finite(n as real)))
  {
    ParseValueInt(n);
  }
}
