/**
 * The configuration loader: key-path lookup and assignment on a config
 * object, filling of missing sections and the MCP-server check, the default
 * configuration, the array-replacing merge fold, and the choice of YAML or
 * JSON by file extension.
 */
module ConfigLoader {
  import opened Wrappers
  import opened Text
  import opened Assoc
  import opened Json
  import opened FileSystem

  // ---------------------------------------------------------------------------
  // get(config, keyPath)
  // ---------------------------------------------------------------------------

  /** Objects and arrays: the values `get` and `set` can descend into. */
  predicate Container(v: Json) {
    v.JObj? || v.JArr?
  }

  /**
   * `key in items` and `items[key]` for an array without holes, on its own
   * properties: `length` and the canonical decimal indices below it.
   */
  function ArrayMember(items: seq<Json>, key: string): Option<Json> {
    if key == "length" then Some(JInt(|items|))
    else match ParseIndex(key)
      case Some(i) => if i < |items| then Some(items[i]) else None
      case None => None
  }

  /** An array has exactly `length` and the indices `0 .. length - 1`, spelt in decimal. */
  lemma ArrayMemberIff(items: seq<Json>, key: string)
    ensures ArrayMember(items, key).Some? <==>
      key == "length" || exists i :: 0 <= i < |items| && NatToString(i) == key
    ensures key == "length" ==> ArrayMember(items, key) == Some(JInt(|items|))
    ensures forall i :: 0 <= i < |items| && NatToString(i) == key ==> ArrayMember(items, key) == Some(items[i])
  {
    forall i | 0 <= i < |items| && NatToString(i) == key
      ensures key != "length" && ArrayMember(items, key) == Some(items[i])
    {
      assert IsDigit(key[0]);
      ParseIndexRoundTrip(i);
    }
    if key != "length" && ArrayMember(items, key).Some? {
      var i := ParseIndex(key).value;
      assert NatToString(i) == key;
    }
  }

  /** One step of `get`: descend into `v[key]` when `v` is a (truthy) object or array holding `key`. */
  function Step(v: Json, key: string): (r: Option<Json>)
    ensures r.Some? ==> Container(v)
    ensures v.JObj? ==> (r.Some? <==> key in Keys(v.fields))
    ensures v.JObj? && r.Some? ==> (key, r.value) in v.fields
  {
    match v
    case JObj(f) => Get(f, key)
    case JArr(items) => ArrayMember(items, key)
    case _ => None
  }

  /** The value reached by following `keys` from `v`, or `None` (`undefined`) once a step fails. */
  function Lookup(v: Json, keys: seq<string>): Option<Json>
    decreases |keys|
  {
    if |keys| == 0 then Some(v)
    else match Step(v, keys[0])
      case None => None
      case Some(c) => Lookup(c, keys[1..])
  }
  /** Following `a + b` is following `a`, then `b` from where `a` ended. */
  lemma {:induction false} LookupAppend(v: Json, a: seq<string>, b: seq<string>)
    ensures Lookup(v, a + b) == match Lookup(v, a) case None => None case Some(w) => Lookup(w, b)
    decreases |a|
  {
    if |a| > 0 {
      assert (a + b)[0] == a[0] && (a + b)[1..] == a[1..] + b;
      match Step(v, a[0])
      case None =>
        assert Lookup(v, a + b) == None;
      case Some(c) =>
        assert Lookup(v, a + b) == Lookup(c, a[1..] + b);
        assert Lookup(v, a) == Lookup(c, a[1..]);
        LookupAppend(c, a[1..], b);
    } else {
      assert a + b == b;
    }
  }

  /** Where following `keys` first gets stuck: the prefix before segment `i` resolves, segment `i` does not. */
  predicate StuckAt(v: Json, keys: seq<string>, i: nat)
    requires i < |keys|
  {
    Lookup(v, keys[..i]).Some? && Step(Lookup(v, keys[..i]).value, keys[i]).None?
  }

  /**
   * `get` yields `undefined` exactly when some segment is missing or meets a
   * value that is neither an object nor an array; otherwise it yields the
   * value at the path.
   */
  lemma {:induction false} LookupNone(v: Json, keys: seq<string>)
    ensures Lookup(v, keys).None? <==> exists i :: 0 <= i < |keys| && StuckAt(v, keys, i)
    decreases |keys|
  {
    if |keys| > 0 {
      assert keys[..0] == [];
      match Step(v, keys[0])
      case None =>
        assert StuckAt(v, keys, 0);
      case Some(c) =>
        LookupNone(c, keys[1..]);
        forall i | 0 < i < |keys|
          ensures StuckAt(v, keys, i) <==> StuckAt(c, keys[1..], i - 1)
        {
          assert keys[..i] == [keys[0]] + keys[1..][..i - 1];
          LookupAppend(v, [keys[0]], keys[1..][..i - 1]);
          assert keys[1..][i - 1] == keys[i];
        }
        if Lookup(c, keys[1..]).None? {
          var j :| 0 <= j < |keys[1..]| && StuckAt(c, keys[1..], j);
          assert StuckAt(v, keys, j + 1);
        }
        if exists i :: 0 <= i < |keys| && StuckAt(v, keys, i) {
          var i :| 0 <= i < |keys| && StuckAt(v, keys, i);
          assert i != 0;
          assert StuckAt(c, keys[1..], i - 1);
        }
    }
  }

  /** `get(config, keyPath)`: splits the path on '.' and descends one segment at a time. */
  method GetValue(config: Fields, keyPath: string) returns (r: Option<Json>)
    ensures r == Lookup(JObj(config), Split(keyPath, '.'))
  {
    var keys := Split(keyPath, '.');
    var value := JObj(config);
    var i := 0;
    while i < |keys|
      invariant 0 <= i <= |keys|
      invariant Lookup(JObj(config), keys) == Lookup(value, keys[i..])
    {
      assert keys[i..][1..] == keys[i + 1..];
      match Step(value, keys[i])
      case None =>
        return None;
      case Some(c) =>
        value := c;
      i := i + 1;
    }
    return Some(value);
  }

  /** A path of two '.'-free segments splits back into them. */
  lemma SplitTwo(a: string, b: string)
    requires '.' !in a && '.' !in b
    ensures Split(a + "." + b, '.') == [a, b]
  {
    assert JoinWith([a, b], ".") == a + "." + b;
    SplitJoin([a, b], '.');
  }

  /** Following two segments is two steps. */
  lemma LookupPair(v: Json, a: string, b: string)
    ensures Lookup(v, [a, b]) == match Step(v, a) case None => None case Some(c) => Step(c, b)
  {
    assert [a, b][1..] == [b] && [b][1..] == [];
    match Step(v, a)
    case None =>
    case Some(c) =>
      assert Lookup(v, [a, b]) == Lookup(c, [b]);
      match Step(c, b)
      case None =>
      case Some(d) => assert Lookup(c, [b]) == Lookup(d, []);
  }

  /** `get` of a two-segment path: the first key of the config, then one step below it. */
  lemma GetPair(config: Fields, k: string, p: string)
    requires '.' !in k && '.' !in p
    ensures Lookup(JObj(config), Split(k + "." + p, '.')) ==
      match Get(config, k) case None => None case Some(c) => Step(c, p)
  {
    SplitTwo(k, p);
    LookupPair(JObj(config), k, p);
  }

  /** `get` descends into an array: `"k.<i>"` is element `i`. */
  lemma GetArrayElement(config: Fields, k: string, items: seq<Json>, i: nat)
    requires '.' !in k && Get(config, k) == Some(JArr(items)) && i < |items|
    ensures Lookup(JObj(config), Split(k + "." + NatToString(i), '.')) == Some(items[i])
  {
    GetPair(config, k, NatToString(i));
    ArrayMemberIff(items, NatToString(i));
  }

  /** `get` of `"k.length"` on an array is its element count. */
  lemma GetArrayLength(config: Fields, k: string, items: seq<Json>)
    requires '.' !in k && Get(config, k) == Some(JArr(items))
    ensures Lookup(JObj(config), Split(k + "." + "length", '.')) == Some(JInt(|items|))
  {
    assert Split(k + "." + "length", '.') == [k, "length"] by {
      SplitTwo(k, "length");
    }
    assert Lookup(JObj(config), [k, "length"]) == Some(JInt(|items|)) by {
      LookupPair(JObj(config), k, "length");
      assert Step(JArr(items), "length") == Some(JInt(|items|));
    }
  }

  // ---------------------------------------------------------------------------
  // set(config, keyPath, value)
  // ---------------------------------------------------------------------------

  /** `typeof v === 'object'`, which holds for objects, arrays and null. */
  predicate ObjectTyped(v: Json) {
    v.JObj? || v.JArr? || v.JNull?
  }

  /** The object chain `set` creates below a fresh `{}`: `{k1: {k2: ... value}}`. */
  function Nest(keys: seq<string>, value: Json): Json
    decreases |keys|
  {
    if |keys| == 0 then value else JObj([(keys[0], Nest(keys[1..], value))])
  }

  /** The RangeError an array throws for a `length` that is not a count it can take. */
  const InvalidArrayLength := "Invalid array length"

  /**
   * The outcome reported for an array write the model cannot represent: an
   * index that leaves holes, a `length` that grows the array or is not an
   * integer, and a named (non-index) property.
   */
  const ArrayUpdateUnmodelled := "array update not represented"

  /**
   * `current[key] = x` on an object or array. An object gets the key replaced
   * in place or appended; an array gets an element replaced, one appended at
   * index `length`, or is truncated by a smaller `length`.
   */
  function AssignKey(current: Json, key: string, x: Json): (r: Result<Json>)
    requires Container(current)
    ensures r.Ok? ==> Step(r.value, key) == Some(x)
    ensures r.Ok? ==> (r.value.JObj? <==> current.JObj?) && Container(r.value)
    ensures current.JObj? ==> r.Ok? && forall k :: k != key ==> Get(r.value.fields, k) == Get(current.fields, k)
    ensures current.JArr? && r.Ok? && key != "length" ==>
      |r.value.items| >= |current.items| && forall k :: k != key && k != "length" && Step(current, k).Some? ==> Step(r.value, k) == Step(current, k)
  {
    match current
    case JObj(f) => Ok(JObj(Put(f, key, x)))
    case JArr(items) =>
      if key == "length" then
        if x.JInt? && 0 <= x.n <= |items| then Ok(JArr(items[..x.n]))
        else if x.JObj? || (x.JInt? && (x.n < 0 || x.n >= 0x1_0000_0000)) then Err(InvalidArrayLength)
        else Err(ArrayUpdateUnmodelled)
      else match ParseIndex(key)
        case Some(i) =>
          if i < |items| then Ok(JArr(items[i := x]))
          else if i == |items| then Ok(JArr(items + [x]))
          else Err(ArrayUpdateUnmodelled)
        case None => Err(ArrayUpdateUnmodelled)
  }

  /**
   * The walk of `set` from object or array `current` along `keys` (at least
   * one): every missing or non-object intermediate is replaced by `{}`, a null
   * intermediate makes the next step throw, and the last segment is assigned
   * `value`. Objects and arrays already on the path are updated, not replaced.
   */
  function SetIn(current: Json, keys: seq<string>, value: Json): (r: Result<Json>)
    requires Container(current) && |keys| > 0
    ensures r.Ok? ==> Lookup(r.value, keys) == Some(value)
    ensures r.Ok? ==> (r.value.JObj? <==> current.JObj?) && Container(r.value)
    ensures current.JObj? && r.Ok? ==> forall k :: k != keys[0] ==> Get(r.value.fields, k) == Get(current.fields, k)
    decreases |keys|
  {
    var key := keys[0];
    if |keys| == 1 then AssignKey(current, key, value)
    else
      var child := Step(current, key);
      if child.Some? && child.value.JNull? then
        if |keys| == 2 then Err("Cannot set properties of null (setting '" + keys[1] + "')")
        else Err("Cannot use 'in' operator to search for '" + keys[1] + "' in null")
      else
        var next := if child.Some? && Container(child.value) then child.value else JObj([]);
        match SetIn(next, keys[1..], value)
        case Err(e) => Err(e)
        case Ok(c) => AssignKey(current, key, c)
  }

  /** Below a fresh `{}` the walk always succeeds and builds exactly the nested chain. */
  lemma {:induction false} SetInEmpty(keys: seq<string>, value: Json)
    requires |keys| > 0
    ensures SetIn(JObj([]), keys, value) == Ok(Nest(keys, value))
    decreases |keys|
  {
    if |keys| > 1 {
      SetInEmpty(keys[1..], value);
      PutEmpty(keys[0], Nest(keys[1..], value));
    } else {
      PutEmpty(keys[0], value);
      assert keys[1..] == [];
    }
  }

  /**
   * The result of `set` and what the caller's `config` looks like afterwards:
   * `{...config}` copies only the top level, so nested objects and arrays
   * reached through an existing one are the caller's own and are updated in place.
   */
  datatype SetOutcome = SetOutcome(result: Fields, input: Fields)

  function Set(config: Fields, keyPath: string, value: Json): (r: Result<SetOutcome>)
    ensures r.Ok? ==> Lookup(JObj(r.value.result), Split(keyPath, '.')) == Some(value)
  {
    var keys := Split(keyPath, '.');
    match SetIn(JObj(config), keys, value)
    case Err(e) => Err(e)
    case Ok(result) =>
      var first := Get(config, keys[0]);
      var shared := |keys| > 1 && first.Some? && Container(first.value);
      Ok(SetOutcome(result.fields, if shared then result.fields else config))
  }

  /** A path without '.' assigns one top-level key of the copy and leaves the caller's object untouched. */
  lemma SetOneSegment(config: Fields, keyPath: string, value: Json)
    requires '.' !in keyPath
    ensures Set(config, keyPath, value) == Ok(SetOutcome(Put(config, keyPath, value), config))
  {
    assert IndexOfChar(keyPath, '.').None?;
  }

  /** Only the first segment's top-level entry of the result can differ from the input's. */
  lemma SetTopLevel(config: Fields, keyPath: string, value: Json, k: string)
    requires Set(config, keyPath, value).Ok? && k != Split(keyPath, '.')[0]
    ensures Get(Set(config, keyPath, value).value.result, k) == Get(config, k)
  {
  }

  /**
   * Through an existing nested object or array the write is shared: the
   * caller's own config also holds `value` at the path afterwards.
   */
  lemma SetSharesNested(config: Fields, keyPath: string, value: Json)
    requires Set(config, keyPath, value).Ok?
    requires |Split(keyPath, '.')| > 1
    requires var c := Get(config, Split(keyPath, '.')[0]); c.Some? && Container(c.value)
    ensures Lookup(JObj(Set(config, keyPath, value).value.input), Split(keyPath, '.')) == Some(value)
  {
  }

  /**
   * A missing or non-object first segment is replaced by a fresh object holding
   * just the rest of the path; the caller's config is not changed.
   */
  lemma SetReplacesScalar(config: Fields, keyPath: string, value: Json)
    requires |Split(keyPath, '.')| > 1
    requires var c := Get(config, Split(keyPath, '.')[0]); c.None? || !ObjectTyped(c.value)
    ensures Set(config, keyPath, value).Ok?
    ensures Set(config, keyPath, value).value.input == config
    ensures Get(Set(config, keyPath, value).value.result, Split(keyPath, '.')[0]) ==
      Some(Nest(Split(keyPath, '.')[1..], value))
  {
    var keys := Split(keyPath, '.');
    SetInEmpty(keys[1..], value);
  }

  /** Setting through a null intermediate throws. */
  lemma SetThroughNull(config: Fields, keyPath: string, value: Json)
    requires |Split(keyPath, '.')| > 1 && Get(config, Split(keyPath, '.')[0]) == Some(JNull)
    ensures Set(config, keyPath, value).Err?
  {
  }

  /**
   * `set` writes into an existing array element in place: the result holds the
   * updated array, and so does the caller's config, which shares it.
   */
  lemma SetArrayElement(config: Fields, k: string, items: seq<Json>, i: nat, x: Json)
    requires '.' !in k && Get(config, k) == Some(JArr(items)) && i < |items|
    ensures var r := Put(config, k, JArr(items[i := x]));
      Set(config, k + "." + NatToString(i), x) == Ok(SetOutcome(r, r))
  {
    var p := NatToString(i);
    SplitTwo(k, p);
    ParseIndexRoundTrip(i);
    assert AssignKey(JArr(items), p, x) == Ok(JArr(items[i := x]));
    SetInPair(JObj(config), k, p, x);
  }

  /** Two segments below an object: the walk into its child, then the assignment. */
  lemma SetInPair(current: Json, a: string, b: string, x: Json)
    requires current.JObj?
    ensures var child := Step(current, a);
      SetIn(current, [a, b], x) ==
        if child.Some? && child.value.JNull? then Err("Cannot set properties of null (setting '" + b + "')")
        else
          var next := if child.Some? && Container(child.value) then child.value else JObj([]);
          match AssignKey(next, b, x)
          case Err(e) => Err(e)
          case Ok(c) => AssignKey(current, a, c)
  {
    assert [a, b][1..] == [b];
  }

  /** A path that continues below an array's `length` assigns `{}` to the length, which throws. */
  lemma SetBelowLength(config: Fields, k: string, items: seq<Json>, rest: string, x: Json)
    requires '.' !in k && '.' !in rest && Get(config, k) == Some(JArr(items))
    ensures Set(config, k + "." + "length" + "." + rest, x) == Err(InvalidArrayLength)
  {
    SplitThree(k, "length", rest);
    LengthWalk(items, rest, x);
    SetInErrBelow(config, [k, "length", rest], x, InvalidArrayLength);
  }

  /** An error below an existing object or array child of the top level is the error of the whole walk. */
  lemma SetInErrBelow(config: Fields, keys: seq<string>, x: Json, e: string)
    requires |keys| > 1
    requires var c := Get(config, keys[0]); c.Some? && Container(c.value) && SetIn(c.value, keys[1..], x) == Err(e)
    ensures SetIn(JObj(config), keys, x) == Err(e)
  {
  }

  /** Inside an array, stepping through `length` replaces the count by `{}` and throws. */
  lemma LengthWalk(items: seq<Json>, rest: string, x: Json)
    ensures SetIn(JArr(items), ["length", rest], x) == Err(InvalidArrayLength)
  {
    assert ["length", rest][1..] == [rest];
    SetInEmpty([rest], x);
    assert Step(JArr(items), "length") == Some(JInt(|items|));
  }

  /** A path of three '.'-free segments splits back into them. */
  lemma SplitThree(a: string, b: string, c: string)
    requires '.' !in a && '.' !in b && '.' !in c
    ensures Split(a + "." + b + "." + c, '.') == [a, b, c]
  {
    var keys := [a, b, c];
    assert keys[1..] == [b, c] && keys[1..][1..] == [c];
    assert JoinWith(keys[1..], ".") == b + "." + c;
    assert JoinWith(keys, ".") == a + "." + b + "." + c;
    SplitJoin(keys, '.');
  }

  // ---------------------------------------------------------------------------
  // validateConfig / validateMCPServer
  // ---------------------------------------------------------------------------

  /** The value `validateConfig` stores under one of its four sections when the config's own is falsy. */
  function SectionDefault(key: string): Option<Json> {
    if key == "platforms" || key == "mcp_servers" || key == "bindings" then Some(JObj([]))
    else if key == "overlays" then Some(JObj([("enabled", JBool(true))]))
    else None
  }

  /** `if (!config[key]) config[key] = default`. */
  function FillSection(config: Fields, key: string, dflt: Json): (r: Fields)
    ensures TruthyOpt(Get(config, key)) ==> r == config
    ensures !TruthyOpt(Get(config, key)) ==> Get(r, key) == Some(dflt)
    ensures forall k :: k != key ==> Get(r, k) == Get(config, k)
  {
    if TruthyOpt(Get(config, key)) then config else Put(config, key, dflt)
  }

  function WithSections(config: Fields): Fields {
    var c1 := FillSection(config, "platforms", JObj([]));
    var c2 := FillSection(c1, "mcp_servers", JObj([]));
    var c3 := FillSection(c2, "overlays", JObj([("enabled", JBool(true))]));
    FillSection(c3, "bindings", JObj([]))
  }

  /**
   * Missing (falsy) sections get their default; every other entry, including a
   * present section, keeps its value.
   */
  lemma WithSectionsGet(config: Fields, k: string)
    ensures Get(WithSections(config), k) ==
      if SectionDefault(k).Some? && !TruthyOpt(Get(config, k)) then SectionDefault(k) else Get(config, k)
    ensures SectionDefault(k).Some? ==> TruthyOpt(Get(WithSections(config), k))
  {
    var c1 := FillSection(config, "platforms", JObj([]));
    var c2 := FillSection(c1, "mcp_servers", JObj([]));
    var c3 := FillSection(c2, "overlays", JObj([("enabled", JBool(true))]));
    assert "platforms"[0] == 'p' && "mcp_servers"[0] == 'm' && "overlays"[0] == 'o' && "bindings"[0] == 'b';
    if k == "platforms" {
      assert Get(c3, k) == Get(c2, k) == Get(c1, k);
    } else if k == "mcp_servers" {
      assert Get(c3, k) == Get(c2, k) && Get(c1, k) == Get(config, k);
    } else if k == "overlays" {
      assert Get(c2, k) == Get(c1, k) == Get(config, k);
    } else if k == "bindings" {
      assert Get(c3, k) == Get(c2, k) == Get(c1, k) == Get(config, k);
    } else {
      assert Get(c3, k) == Get(c2, k) == Get(c1, k) == Get(config, k);
    }
  }

  /** The truthy-field test `server.command` / `server.url`. */
  predicate ServerHas(server: Json, key: string) {
    server.JObj? && TruthyOpt(Get(server.fields, key))
  }

  /** `validateMCPServer(name, server)`: exactly one of `command` and `url` must be set. */
  function CheckServer(name: string, server: Json): (r: Outcome)
    ensures r.Pass? <==> !server.JNull? && (ServerHas(server, "command") != ServerHas(server, "url"))
    ensures !server.JNull? && !ServerHas(server, "command") && !ServerHas(server, "url") ==>
      r == Fail("MCP server '" + name + "' must have either 'command' or 'url'")
    ensures ServerHas(server, "command") && ServerHas(server, "url") ==>
      r == Fail("MCP server '" + name + "' cannot have both 'command' and 'url'")
  {
    if server.JNull? then Fail("Cannot read properties of null (reading 'command')")
    else
      var command := ServerHas(server, "command");
      var url := ServerHas(server, "url");
      if !command && !url then Fail("MCP server '" + name + "' must have either 'command' or 'url'")
      else if command && url then Fail("MCP server '" + name + "' cannot have both 'command' and 'url'")
      else Pass
  }

  predicate ServerOk(e: (string, Json)) {
    CheckServer(e.0, e.1).Pass?
  }

  /** The servers in entry order, thrown at the first one that fails. */
  function FirstFailure(servers: Fields): (r: Outcome)
    ensures r.Pass? <==> forall i :: 0 <= i < |servers| ==> ServerOk(servers[i])
  {
    if |servers| == 0 then Pass
    else
      var o := CheckServer(servers[0].0, servers[0].1);
      if o.Fail? then o
      else
        var tail := servers[1..];
        assert forall i :: 0 <= i < |tail| ==> tail[i] == servers[i + 1];
        FirstFailure(tail)
  }

  /** The error thrown is the first failing server's own. */
  lemma {:induction false} FirstFailureIsFirst(servers: Fields, i: nat)
    requires i < |servers| && !ServerOk(servers[i])
    requires forall j :: 0 <= j < i ==> ServerOk(servers[j])
    ensures FirstFailure(servers) == CheckServer(servers[i].0, servers[i].1)
  {
    if i > 0 {
      var tail := servers[1..];
      assert ServerOk(servers[0]);
      forall j | 0 <= j < i - 1 ensures ServerOk(tail[j]) {
        assert tail[j] == servers[j + 1];
      }
      FirstFailureIsFirst(tail, i - 1);
    }
  }

  /** `Object.entries(config.mcp_servers || {})`. */
  function ServerEntries(config: Fields): Fields {
    var s := Get(config, "mcp_servers");
    if s.Some? && s.value.JObj? then s.value.fields else []
  }

  /** validateConfig's result: the config with its sections filled in, or the first server error. */
  function ValidatedConfig(config: Fields): (r: Result<Fields>)
    ensures r.Ok? <==>
      forall i :: 0 <= i < |ServerEntries(WithSections(config))| ==> ServerOk(ServerEntries(WithSections(config))[i])
    ensures r.Ok? ==> r.value == WithSections(config)
  {
    var c := WithSections(config);
    match FirstFailure(ServerEntries(c))
    case Pass => Ok(c)
    case Fail(e) => Err(e)
  }

  /** The four `if (!config.x) config.x = ...` statements of validateConfig. */
  method FillSections(config: Fields) returns (c: Fields)
    ensures c == WithSections(config)
  {
    c := config;
    if !TruthyOpt(Get(c, "platforms")) {
      c := Put(c, "platforms", JObj([]));
    }
    assert c == FillSection(config, "platforms", JObj([]));
    ghost var c1 := c;
    if !TruthyOpt(Get(c, "mcp_servers")) {
      c := Put(c, "mcp_servers", JObj([]));
    }
    assert c == FillSection(c1, "mcp_servers", JObj([]));
    ghost var c2 := c;
    if !TruthyOpt(Get(c, "overlays")) {
      c := Put(c, "overlays", JObj([("enabled", JBool(true))]));
    }
    assert c == FillSection(c2, "overlays", JObj([("enabled", JBool(true))]));
    ghost var c3 := c;
    if !TruthyOpt(Get(c, "bindings")) {
      c := Put(c, "bindings", JObj([]));
    }
    assert c == FillSection(c3, "bindings", JObj([]));
  }

  /** `validateConfig(config)`: fills the sections in place, then checks every MCP server. */
  method ValidateConfig(config: Fields) returns (r: Result<Fields>)
    ensures r == ValidatedConfig(config)
  {
    var c := FillSections(config);
    var servers := ServerEntries(c);
    var i := 0;
    while i < |servers|
      invariant 0 <= i <= |servers|
      invariant FirstFailure(servers) == FirstFailure(servers[i..])
    {
      assert servers[i..][0] == servers[i] && servers[i..][1..] == servers[i + 1..];
      var o := CheckServer(servers[i].0, servers[i].1);
      if o.Fail? {
        return Err(o.error);
      }
      i := i + 1;
    }
    return Ok(c);
  }

  /** On failure the error is the first failing server's. */
  lemma ValidatedConfigErr(config: Fields, i: nat)
    requires var s := ServerEntries(WithSections(config));
      i < |s| && !ServerOk(s[i]) && forall j :: 0 <= j < i ==> ServerOk(s[j])
    ensures var s := ServerEntries(WithSections(config));
      ValidatedConfig(config) == Err(CheckServer(s[i].0, s[i].1).error)
  {
    FirstFailureIsFirst(ServerEntries(WithSections(config)), i);
  }

  /** A config whose present MCP servers each name one `command` and no `url` passes unchanged apart from the filled sections. */
  lemma CommandServersPass(config: Fields)
    requires forall i :: 0 <= i < |ServerEntries(WithSections(config))| ==>
      ServerHas(ServerEntries(WithSections(config))[i].1, "command") &&
      !ServerHas(ServerEntries(WithSections(config))[i].1, "url")
    ensures ValidatedConfig(config) == Ok(WithSections(config))
  {
    var s := ServerEntries(WithSections(config));
    assert forall i :: 0 <= i < |s| ==> ServerOk(s[i]);
  }

  // ---------------------------------------------------------------------------
  // getDefaultConfig / merge / deepMerge
  // ---------------------------------------------------------------------------

  const DefaultOverlayPath := ".faber/overlays"

  /** `getDefaultConfig()`. */
  const DefaultConfig: Fields := [
    ("platforms", JObj([])),
    ("mcp_servers", JObj([])),
    ("overlays", JObj([("enabled", JBool(true)), ("paths", JArr([JStr(DefaultOverlayPath)]))])),
    ("bindings", JObj([]))
  ]

  /** This deepMerge: objects on both sides recurse; anything else, arrays included, is the source's value. */
  lemma ConfigDeepMergeGet(target: Fields, source: Fields, k: string)
    requires DistinctKeys(source)
    ensures Get(DeepMerge(Replace, target, source), k) ==
      if k !in Keys(source) then Get(target, k)
      else if IsPlainObject(Get(target, k)) && Get(source, k).value.JObj? then
        Some(JObj(DeepMerge(Replace, Get(target, k).value.fields, Get(source, k).value.fields)))
      else Get(source, k)
  {
    DeepMergeGet(Replace, target, source, k);
  }

  /** The fold of `merge(...configs)`, starting from the default configuration. */
  function MergeAll(configs: seq<Fields>): Fields
    decreases |configs|
  {
    if |configs| == 0 then DefaultConfig
    else DeepMerge(Replace, MergeAll(configs[..|configs| - 1]), configs[|configs| - 1])
  }

  /** Every section of the default configuration survives any merge, and no key is ever repeated. */
  lemma {:induction false} MergeAllKeys(configs: seq<Fields>)
    ensures forall k :: k in Keys(DefaultConfig) ==> k in Keys(MergeAll(configs))
    ensures DistinctKeys(MergeAll(configs))
    decreases |configs|
  {
    if |configs| == 0 {
      assert Keys(DefaultConfig) == ["platforms", "mcp_servers", "overlays", "bindings"];
      assert "platforms"[0] == 'p' && "mcp_servers"[0] == 'm' && "overlays"[0] == 'o' && "bindings"[0] == 'b';
    } else {
      MergeAllKeys(configs[..|configs| - 1]);
      DeepMergeKeys(Replace, MergeAll(configs[..|configs| - 1]), configs[|configs| - 1]);
    }
  }

  /** `merge(...configs)`. */
  method Merge(configs: seq<Fields>) returns (r: Fields)
    ensures r == MergeAll(configs)
  {
    r := DefaultConfig;
    var i := 0;
    while i < |configs|
      invariant 0 <= i <= |configs|
      invariant r == MergeAll(configs[..i])
    {
      assert configs[..i + 1][..i] == configs[..i];
      r := DeepMerge(Replace, r, configs[i]);
      i := i + 1;
    }
    assert configs[..|configs|] == configs;
  }

  /** `merge()` with no arguments is the default configuration. */
  lemma MergeNothing()
    ensures MergeAll([]) == DefaultConfig
  {
  }

  /** A key the last config sets to a non-object value (a scalar, null or an array) ends with that value. */
  lemma MergeLastWins(configs: seq<Fields>, k: string)
    requires |configs| > 0 && DistinctKeys(configs[|configs| - 1])
    requires var last := configs[|configs| - 1]; k in Keys(last) && !Get(last, k).value.JObj?
    ensures Get(MergeAll(configs), k) == Get(configs[|configs| - 1], k)
  {
    ConfigDeepMergeGet(MergeAll(configs[..|configs| - 1]), configs[|configs| - 1], k);
  }

  /** A key no config mentions keeps the default configuration's value. */
  lemma {:induction false} MergeUntouched(configs: seq<Fields>, k: string)
    requires forall i :: 0 <= i < |configs| ==> k !in Keys(configs[i])
    ensures Get(MergeAll(configs), k) == Get(DefaultConfig, k)
    decreases |configs|
  {
    if |configs| > 0 {
      var init := configs[..|configs| - 1];
      MergeUntouched(init, k);
      DeepMergeGetOut(Replace, MergeAll(init), configs[|configs| - 1], k);
    }
  }

  // ---------------------------------------------------------------------------
  // load / loadFromFile / save: the extension dispatch
  // ---------------------------------------------------------------------------

  /**
   * `path.extname(p)`: from the last '.' of the last segment, unless that dot
   * is the segment's first character (a dotfile) or only dots precede it in
   * "..".
   */
  function Extname(p: string): (r: string)
    ensures r == "" || r[0] == '.'
  {
    SegmentExt(LastSegment(p))
  }

  /** `path.basename(p)`: what follows the last '/'. */
  function LastSegment(p: string): (r: string)
    ensures '/' !in p ==> r == p
  {
    match LastIndexOfChar(p, '/') case None => p case Some(i) => p[i + 1..]
  }

  function SegmentExt(base: string): (r: string)
    ensures r == "" || r[0] == '.'
  {
    match LastIndexOfChar(base, '.')
    case None => ""
    case Some(d) => if d == 0 || base == ".." then "" else base[d..]
  }

  datatype Format = Yaml | JsonText

  /** The parser or serialiser chosen by extension, or the `Unsupported config file format` error. */
  function FormatOf(p: string): (r: Result<Format>)
    ensures r == Ok(Yaml) <==> Extname(p) == ".yml" || Extname(p) == ".yaml"
    ensures r == Ok(JsonText) <==> Extname(p) == ".json"
    ensures r.Err? ==> r.error == "Unsupported config file format: " + Extname(p)
  {
    var ext := Extname(p);
    if ext == ".yml" || ext == ".yaml" then Ok(Yaml)
    else if ext == ".json" then Ok(JsonText)
    else Err("Unsupported config file format: " + ext)
  }

  /** Only the last segment decides the extension. */
  lemma ExtnameLastSegment(dir: string, base: string)
    requires '/' !in base
    ensures Extname(dir + "/" + base) == SegmentExt(base)
  {
    LastIndexSuffix(dir, '/', base);
    assert (dir + "/" + base)[|dir| + 1..] == base;
  }

  lemma SegmentExtNamed(stem: string, ext: string)
    requires |stem| > 0 && |ext| > 0 && '.' !in ext
    ensures SegmentExt(stem + "." + ext) == "." + ext
  {
    var base := stem + "." + ext;
    LastIndexSuffix(stem, '.', ext);
    assert base[|stem|..] == "." + ext;
    assert |base| > 2;
  }

  /** A file `<dir>/<stem>.<ext>` with a non-empty stem has extension `.<ext>`. */
  lemma ExtnameNamed(dir: string, stem: string, ext: string)
    requires |stem| > 0 && |ext| > 0 && '/' !in stem && '.' !in ext && '/' !in ext
    ensures Extname(dir + "/" + stem + "." + ext) == "." + ext
  {
    var base := stem + "." + ext;
    assert '/' !in base;
    assert dir + "/" + stem + "." + ext == dir + "/" + base;
    ExtnameLastSegment(dir, base);
    SegmentExtNamed(stem, ext);
  }

  /** A dotfile such as `.faberrc` has no extension, so loading or saving it directly throws. */
  lemma DotfileUnsupported(dir: string, rest: string)
    requires '.' !in rest && '/' !in rest
    ensures FormatOf(dir + "/" + "." + rest) == Err("Unsupported config file format: ")
  {
    var base := "." + rest;
    assert '/' !in base;
    assert dir + "/" + "." + rest == dir + "/" + base;
    ExtnameLastSegment(dir, base);
    DotfileSegment(rest);
  }

  lemma DotfileSegment(rest: string)
    requires '.' !in rest
    ensures SegmentExt("." + rest) == ""
  {
    LastIndexSuffix([], '.', rest);
    assert [] + ['.'] + rest == "." + rest;
  }

  /** The config a parsed file denotes: only an object can have its sections filled. */
  function AsConfig(v: Option<Json>, file: string): Result<Fields> {
    match v
    case None => Err("Failed to parse " + file)
    case Some(JObj(f)) => Ok(f)
    case Some(JNull) => Err("Cannot read properties of null (reading 'platforms')")
    case Some(_) => Err("Cannot create property 'platforms' on a non-object value")
  }

  /**
   * `loadFromFile(filePath)`: read, parse by extension, validate. The read
   * happens first, so an unreadable file fails before the extension is looked at.
   */
  function LoadFromFile(fs: Snapshot, parseYaml: string -> Option<Json>, parseJson: string -> Option<Json>,
                        filePath: string): (r: Result<Fields>)
    ensures ReadFile(fs, filePath).None? ==> r.Err?
    ensures ReadFile(fs, filePath).Some? && FormatOf(filePath).Err? ==> r == Err(FormatOf(filePath).error)
    ensures r.Ok? ==> FormatOf(filePath).Ok?
  {
    match ReadFile(fs, filePath)
    case None => Err("ENOENT: no such file or directory, open '" + filePath + "'")
    case Some(content) =>
      match FormatOf(filePath)
      case Err(e) => Err(e)
      case Ok(fmt) =>
        var parsed := if fmt == Yaml then parseYaml(content) else parseJson(content);
        match AsConfig(parsed, filePath)
        case Err(e) => Err(e)
        case Ok(c) => ValidatedConfig(c)
  }

  /**
   * `save(config, filePath)`: the text written, chosen by extension; an
   * unsupported extension throws before anything is written.
   */
  function SaveContent(config: Fields, filePath: string, dumpYaml: Fields -> string,
                       dumpJson: Fields -> string): (r: Result<string>)
    ensures r.Ok? <==> FormatOf(filePath).Ok?
    ensures FormatOf(filePath) == Ok(Yaml) ==> r == Ok(dumpYaml(config))
    ensures FormatOf(filePath) == Ok(JsonText) ==> r == Ok(dumpJson(config))
  {
    match FormatOf(filePath)
    case Err(e) => Err(e)
    case Ok(Yaml) => Ok(dumpYaml(config))
    case Ok(JsonText) => Ok(dumpJson(config))
  }

  /**
   * `load(startPath)`: the config found by the search (a parameter here) is
   * validated when present and truthy; otherwise the default configuration.
   */
  function Load(found: Option<Json>): (r: Result<Fields>)
    ensures !TruthyOpt(found) ==> r == Ok(DefaultConfig)
    ensures TruthyOpt(found) && found.value.JObj? ==> r == ValidatedConfig(found.value.fields)
  {
    if !TruthyOpt(found) then Ok(DefaultConfig)
    else match found.value
      case JObj(f) => ValidatedConfig(f)
      case _ => Err("Cannot create property 'platforms' on a non-object value")
  }
}
