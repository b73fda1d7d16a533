/** The options given to the JDWP agent: an ordered key/value store, its parser and its printer. */
module JdwpOptions {

  type Pair = (string, string)

  // ------------------------------------------------------------------ the store as a value

  /** The position of a key, or the number of pairs. */
  function IndexOfKey(ps: seq<Pair>, key: string): (i: nat)
    ensures i <= |ps|
    ensures i < |ps| ==> ps[i].0 == key
    ensures forall j | 0 <= j < i :: ps[j].0 != key
  {
    if ps == [] || ps[0].0 == key then 0 else 1 + IndexOfKey(ps[1..], key)
  }

  predicate Has(ps: seq<Pair>, key: string) {
    IndexOfKey(ps, key) < |ps|
  }

  function Lookup(ps: seq<Pair>, key: string): string {
    if Has(ps, key) then ps[IndexOfKey(ps, key)].1 else ""
  }

  predicate DistinctKeys(ps: seq<Pair>) {
    forall i, j | 0 <= i < j < |ps| :: ps[i].0 != ps[j].0
  }

  /** A new key goes to the end; an old one keeps its place and gets the new value. */
  function Put(ps: seq<Pair>, key: string, value: string): (r: seq<Pair>) {
    var i := IndexOfKey(ps, key);
    if i < |ps| then ps[i := (key, value)] else ps + [(key, value)]
  }

  lemma IndexUnique(ps: seq<Pair>, key: string, i: nat)
    requires i < |ps| && ps[i].0 == key && forall j | 0 <= j < i :: ps[j].0 != key
    ensures IndexOfKey(ps, key) == i
  {
  }

  lemma IndexAbsent(ps: seq<Pair>, key: string)
    requires forall j | 0 <= j < |ps| :: ps[j].0 != key
    ensures IndexOfKey(ps, key) == |ps|
  {
  }

  /** After a put: the key has the value, other keys keep place and value, and keys stay distinct. */
  lemma PutEffect(ps: seq<Pair>, key: string, value: string, other: string)
    requires DistinctKeys(ps)
    ensures DistinctKeys(Put(ps, key, value))
    ensures Has(Put(ps, key, value), key) && Lookup(Put(ps, key, value), key) == value
    ensures Has(ps, key) ==> IndexOfKey(Put(ps, key, value), key) == IndexOfKey(ps, key)
    ensures !Has(ps, key) ==> IndexOfKey(Put(ps, key, value), key) == |ps|
    ensures Has(ps, other) ==> IndexOfKey(Put(ps, key, value), other) == IndexOfKey(ps, other)
    ensures other != key ==> Has(Put(ps, key, value), other) == Has(ps, other) && Lookup(Put(ps, key, value), other) == Lookup(ps, other)
  {
    hide IndexOfKey;
    var q, i := Put(ps, key, value), IndexOfKey(ps, key);
    IndexUnique(q, key, i);
    var j := IndexOfKey(ps, other);
    if j < |ps| {
      IndexUnique(q, other, j);
    } else if other != key {
      IndexAbsent(q, other);
    }
  }

  // ------------------------------------------------------------------ parsing and printing as functions

  /** `isspace` in the C locale. */
  predicate IsSpace(c: char) {
    c == ' ' || 9 <= c as int <= 13
  }

  function Trim(s: string): (r: string)
    ensures forall c | c in r :: c in s && !IsSpace(c)
  {
    if s == [] then [] else if IsSpace(s[0]) then Trim(s[1..]) else [s[0]] + Trim(s[1..])
  }

  /** The index of the first `c`, or the length. */
  function Find(s: string, c: char): (i: nat)
    ensures i <= |s| && c !in s[..i] && (i < |s| ==> s[i] == c)
  {
    if s == [] || s[0] == c then 0
    else
      assert s[..1 + Find(s[1..], c)] == [s[0]] + s[1..][..Find(s[1..], c)];
      1 + Find(s[1..], c)
  }

  /** The key and value of a token; `None` for no '=' or one at either end. */
  function ParseToken(token: string): seq<Pair> {
    var w := Trim(token);
    var pos := Find(w, '=');
    if pos == |w| || w[|w| - 1] == '=' || w[0] == '=' then [] else [(w[..pos], w[pos + 1..])]
  }

  function PutToken(ps: seq<Pair>, token: string): seq<Pair> {
    var p := ParseToken(token);
    if p == [] then ps else Put(ps, p[0].0, p[0].1)
  }

  /** The pairs after the tokens of `s`, split at commas, have been put into `ps`. */
  function ParseFrom(ps: seq<Pair>, s: string): seq<Pair>
    decreases |s|
  {
    var i := Find(s, ',');
    var q := PutToken(ps, s[..i]);
    if i == |s| then q else ParseFrom(q, s[i + 1..])
  }

  function Parse(s: string): seq<Pair> {
    ParseFrom([], s)
  }

  lemma StartOfParse(s: string)
    ensures Parse(s) == ParseFrom([], s)
  {
    hide ParseFrom;
  }

  /** One token of the text, and whether it is well formed. */
  lemma ParseStep(ps: seq<Pair>, s: string)
    ensures var i := Find(s, ',');
            var w := Trim(s[..i]);
            var pos := Find(w, '=');
            var q := if pos == |w| || w[|w| - 1] == '=' || w[0] == '=' then ps else Put(ps, w[..pos], w[pos + 1..]);
            ParseFrom(ps, s) == if i == |s| then q else ParseFrom(q, s[i + 1..])
  {
    hide Find, Trim, Put;
  }

  /** "key=value," for each pair. */
  function Listed(ps: seq<Pair>): (s: string)
    ensures ps != [] ==> |s| >= 2
  {
    if ps == [] then [] else Listed(ps[..|ps| - 1]) + ps[|ps| - 1].0 + "=" + ps[|ps| - 1].1 + ","
  }

  function Join(ps: seq<Pair>): string {
    var s := Listed(ps);
    if |s| >= 2 then s[..|s| - 1] else s
  }

  // ------------------------------------------------------------------ the class

  class JdwpArgs {
    var keys: seq<string>
    var store: map<string, string>

    /** No key twice, and exactly the keys of the store. */
    ghost predicate Valid()
      reads this
    {
      && (forall i, j | 0 <= i < j < |keys| :: keys[i] != keys[j])
      && (forall k :: k in store <==> k in keys)
    }

    /** The pairs, in the order of the keys. */
    ghost function Pairs(): (ps: seq<Pair>)
      requires Valid()
      reads this
      ensures |ps| == |keys| && forall i | 0 <= i < |ps| :: ps[i] == (keys[i], store[keys[i]])
    {
      seq(|keys|, i requires 0 <= i < |keys| reads this requires Valid() => (keys[i], store[keys[i]]))
    }

    constructor (opts: string)
      ensures Valid() && Pairs() == Parse(opts)
    {
      keys := [];
      store := map[];
      new;
      hide *;
      StartOfParse(opts);
      NoPairs();
      var rest, eof := opts, false;
      while !eof
        invariant Valid()
        invariant if eof then Pairs() == Parse(opts) else ParseFrom(Pairs(), rest) == Parse(opts)
        decreases if eof then 0 else 1 + |rest|
      {
        ParseStep(Pairs(), rest);
        var i := Find(rest, ',');
        var w := Trim(rest[..i]);
        eof := i == |rest|;
        rest := if eof then [] else rest[i + 1..];
        var pos := Find(w, '=');
        if pos == |w| || w[|w| - 1] == '=' || w[0] == '=' {
          continue;
        }
        PutPair(w[..pos], w[pos + 1..]);
      }
    }

    lemma NoPairs()
      requires keys == [] && store == map[]
      ensures Valid() && Pairs() == []
    {
    }

    method PutPair(key: string, value: string)
      requires Valid()
      modifies this
      ensures Valid() && Pairs() == Put(old(Pairs()), key, value)
    {
      ghost var before := Pairs();
      KeyPlace(before, keys, key);
      if key !in store {
        keys := keys + [key];
      }
      store := store[key := value];
      PutIs(before, key, value, Pairs());
    }

    method Contains(key: string) returns (r: bool)
      requires Valid()
      ensures r == Has(Pairs(), key)
    {
      KeyPlace(Pairs(), keys, key);
      r := key in store;
    }

    /** The value of a key that is there. */
    method Get(key: string) returns (value: string)
      requires Valid() && Has(Pairs(), key)
      ensures value == Lookup(Pairs(), key)
    {
      KeyPlace(Pairs(), keys, key);
      value := store[key];
    }

    method JoinAll() returns (opts: string)
      requires Valid()
      ensures opts == Join(Pairs())
    {
      opts := [];
      ghost var ps := Pairs();
      for i := 0 to |keys|
        invariant opts == Listed(ps[..i])
      {
        assert ps[..i + 1][..i] == ps[..i];
        opts := opts + keys[i] + "=" + store[keys[i]] + ",";
      }
      assert ps[..|ps|] == ps;
      if |opts| >= 2 {
        opts := opts[..|opts| - 1];
      }
    }
  }

  lemma PutIs(before: seq<Pair>, key: string, value: string, after: seq<Pair>)
    requires Has(before, key) ==> |after| == |before|
    requires !Has(before, key) ==> |after| == |before| + 1 && after[|before|] == (key, value)
    requires forall i | 0 <= i < |before| :: after[i] == if before[i].0 == key then (key, value) else before[i]
    requires DistinctKeys(before)
    ensures after == Put(before, key, value)
  {
    hide IndexOfKey;
    var p, i := Put(before, key, value), IndexOfKey(before, key);
    forall j | 0 <= j < |after| ensures after[j] == p[j] {
      assert j < |before| && j != i && i < |before| ==> before[j].0 != key;
    }
  }

  lemma KeyPlace(ps: seq<Pair>, keys: seq<string>, key: string)
    requires |ps| == |keys| && forall i | 0 <= i < |ps| :: ps[i].0 == keys[i]
    ensures Has(ps, key) <==> key in keys
    ensures Has(ps, key) ==> keys[IndexOfKey(ps, key)] == key
  {
    if key in keys {
      var i :| 0 <= i < |keys| && keys[i] == key;
      assert ps[i].0 == key;
    }
  }

  // ------------------------------------------------------------------ parsing what was printed

  /** What the parser produces: nothing in a key or value that would be read differently. */
  predicate Clean(p: Pair) {
    && p.0 != [] && p.1 != [] && p.1[|p.1| - 1] != '='
    && (forall c | c in p.0 :: !IsSpace(c) && c != ',' && c != '=')
    && (forall c | c in p.1 :: !IsSpace(c) && c != ',')
  }

  predicate AllClean(ps: seq<Pair>) {
    forall i | 0 <= i < |ps| :: Clean(ps[i])
  }

  lemma TokenIsClean(token: string)
    requires ',' !in token
    ensures AllClean(ParseToken(token))
  {
    hide Trim, Find, IsSpace;
    var w := Trim(token);
    var pos := Find(w, '=');
    if pos < |w| {
      assert forall c | c in w[..pos] :: c in w;
      assert forall c | c in w[pos + 1..] :: c in w;
    }
  }

  lemma PutKeepsClean(ps: seq<Pair>, key: string, value: string)
    requires AllClean(ps) && DistinctKeys(ps) && Clean((key, value))
    ensures AllClean(Put(ps, key, value)) && DistinctKeys(Put(ps, key, value))
  {
    hide Clean, IndexOfKey;
    PutEffect(ps, key, value, key);
  }

  lemma {:induction false} ParsedIsClean(ps: seq<Pair>, s: string)
    requires AllClean(ps) && DistinctKeys(ps)
    ensures AllClean(ParseFrom(ps, s)) && DistinctKeys(ParseFrom(ps, s))
    decreases |s|
  {
    hide Put, ParseToken, Clean;
    var i := Find(s, ',');
    TokenIsClean(s[..i]);
    var p := ParseToken(s[..i]);
    if p != [] { PutKeepsClean(ps, p[0].0, p[0].1); }
    if i < |s| { ParsedIsClean(PutToken(ps, s[..i]), s[i + 1..]); }
  }

  lemma {:induction false} TrimNothing(s: string)
    requires forall c | c in s :: !IsSpace(c)
    ensures Trim(s) == s
  {
    if s != [] {
      TrimNothing(s[1..]);
      assert s == [s[0]] + s[1..];
    }
  }

  /** Trimming looks at each character by itself. */
  lemma {:induction false} TrimConcat(a: string, b: string)
    ensures Trim(a + b) == Trim(a) + Trim(b)
  {
    hide IsSpace;
    if a == [] {
      assert a + b == b;
    } else {
      assert (a + b)[1..] == a[1..] + b && (a + b)[0] == a[0];
      TrimConcat(a[1..], b);
    }
  }

  /** Space, tab, line feed, vertical tab, form feed and carriage return go; every other character stays. */
  lemma TrimOne(c: char)
    ensures Trim([c]) == if c in " \t\n\U{0b}\U{0c}\r" then [] else [c]
  {
    assert [c][1..] == [];
  }

  lemma FindFirst(a: string, c: char, b: string)
    requires c !in a
    ensures Find(a + [c] + b, c) == |a|
  {
    var s, i := a + [c] + b, Find(a + [c] + b, c);
    assert forall j | 0 <= j < |a| :: s[j] == a[j] && s[j] != c;
    assert s[|a|] == c;
  }

  lemma FindNone(s: string, c: char)
    requires c !in s
    ensures Find(s, c) == |s|
  {
  }

  /** A token is a pair exactly if, without spaces, it is a key, '=', and a value that does not end with '='. */
  lemma TokenIff(token: string, key: string, value: string)
    ensures ParseToken(token) == [(key, value)]
       <==> Trim(token) == key + "=" + value && key != [] && '=' !in key && value != [] && value[|value| - 1] != '='
    ensures |ParseToken(token)| <= 1
  {
    hide Trim, Find;
    var w := Trim(token);
    var pos := Find(w, '=');
    assert "=" == ['='];
    if pos < |w| { assert w == w[..pos] + ['='] + w[pos + 1..]; }
    if w == key + "=" + value && '=' !in key {
      FindFirst(key, '=', value);
      assert w[..|key|] == key && w[|key| + 1..] == value;
      assert value != [] ==> w[|w| - 1] == value[|value| - 1];
      assert key != [] ==> w[0] == key[0];
    }
  }

  /** The text is split at its commas. */
  lemma ParseSplit(ps: seq<Pair>, token: string, rest: string)
    requires ',' !in token
    ensures ParseFrom(ps, token) == PutToken(ps, token)
    ensures ParseFrom(ps, token + "," + rest) == ParseFrom(PutToken(ps, token), rest)
  {
    hide Find, PutToken;
    FindNone(token, ',');
    assert token[..|token|] == token;
    var s := token + "," + rest;
    assert s == token + [','] + rest;
    FindFirst(token, ',', rest);
    assert s[..|token|] == token && s[|token| + 1..] == rest;
  }

  function Token(p: Pair): string {
    p.0 + "=" + p.1
  }

  lemma CleanToken(p: Pair)
    requires Clean(p)
    ensures ParseToken(Token(p)) == [p] && ',' !in Token(p)
  {
    var t := Token(p);
    forall c | c in t ensures !IsSpace(c) && c != ',' {
      assert c in p.0 || c == '=' || c in p.1;
    }
    TrimNothing(t);
    assert "=" == ['='];
    FindFirst(p.0, '=', p.1);
    assert t[0] == p.0[0] && t[|t| - 1] == p.1[|p.1| - 1];
    assert t[..|p.0|] == p.0 && t[|p.0| + 1..] == p.1;
  }

  /** "key=value" of the first pair, then the rest. */
  function Printed(ps: seq<Pair>): string {
    if ps == [] then [] else if |ps| == 1 then Token(ps[0]) else Token(ps[0]) + "," + Printed(ps[1..])
  }

  lemma ListedSnoc(ps: seq<Pair>, p: Pair)
    ensures Listed(ps + [p]) == Listed(ps) + (Token(p) + ",") && Listed([]) == []
  {
    assert (ps + [p])[..|ps|] == ps;
  }

  lemma {:induction false} ListedFront(p: Pair, ps: seq<Pair>)
    ensures Listed([p] + ps) == Token(p) + "," + Listed(ps)
  {
    hide *;
    if ps == [] {
      assert [p] + ps == [] + [p];
      ListedSnoc([], p);
    } else {
      var n := |ps| - 1;
      ListedFront(p, ps[..n]);
      ListedSnoc(ps[..n], ps[n]);
      ListedSnoc([p] + ps[..n], ps[n]);
      assert ps == ps[..n] + [ps[n]] && [p] + ps == ([p] + ps[..n]) + [ps[n]];
    }
  }

  lemma {:induction false} ListedIsPrinted(ps: seq<Pair>)
    requires ps != []
    ensures Listed(ps) == Printed(ps) + ","
  {
    assert ps == [ps[0]] + ps[1..];
    ListedFront(ps[0], ps[1..]);
    if |ps| > 1 { ListedIsPrinted(ps[1..]); }
  }

  lemma JoinIsPrinted(ps: seq<Pair>)
    ensures Join(ps) == Printed(ps)
  {
    if ps != [] {
      ListedIsPrinted(ps);
      assert (Printed(ps) + ",")[..|Printed(ps)|] == Printed(ps);
    }
  }

  lemma OneToken(done: seq<Pair>, p: Pair, rest: string)
    requires Clean(p)
    ensures ParseFrom(done, Token(p)) == Put(done, p.0, p.1)
    ensures ParseFrom(done, Token(p) + "," + rest) == ParseFrom(Put(done, p.0, p.1), rest)
  {
    hide Put, Clean, ParseToken, ParseFrom;
    CleanToken(p);
    ParseSplit(done, Token(p), rest);
  }

  lemma PrintedIs(ps: seq<Pair>)
    requires ps != []
    ensures |ps| == 1 ==> Printed(ps) == Token(ps[0])
    ensures |ps| > 1 ==> Printed(ps) == Token(ps[0]) + "," + Printed(ps[1..])
  {
    hide Token;
  }

  /** Putting pairs with new, distinct keys appends them. */
  lemma {:induction false} ParsePrinted(done: seq<Pair>, ps: seq<Pair>)
    requires AllClean(ps) && DistinctKeys(done + ps) && ps != []
    ensures ParseFrom(done, Printed(ps)) == done + ps
    decreases |ps|
  {
    hide *;
    PrintedIs(ps);
    FirstClean(ps);
    NewKey(done, ps);
    OneToken(done, ps[0], Printed(ps[1..]));
    if |ps| == 1 {
      assert ps == [ps[0]];
    } else {
      assert (done + [ps[0]]) + ps[1..] == done + ps;
      ParsePrinted(done + [ps[0]], ps[1..]);
    }
  }

  lemma FirstClean(ps: seq<Pair>)
    requires AllClean(ps) && ps != []
    ensures Clean(ps[0]) && AllClean(ps[1..])
  {
    hide Clean;
  }

  lemma NewKey(done: seq<Pair>, ps: seq<Pair>)
    requires DistinctKeys(done + ps) && ps != []
    ensures Put(done, ps[0].0, ps[0].1) == done + [ps[0]]
  {
    forall j | 0 <= j < |done| ensures done[j].0 != ps[0].0 {
      assert (done + ps)[j].0 != (done + ps)[|done|].0;
    }
    IndexAbsent(done, ps[0].0);
  }

  /** Parsing what was printed gives the same keys, in the same order, with the same values. */
  lemma PrintedParsesBack(ps: seq<Pair>)
    requires AllClean(ps) && DistinctKeys(ps)
    ensures Parse(Join(ps)) == ps
  {
    hide ParseFrom, Clean;
    JoinIsPrinted(ps);
    if ps == [] {
      NothingParsed();
    } else {
      assert [] + ps == ps;
      ParsePrinted([], ps);
    }
  }

  lemma NothingParsed()
    ensures ParseFrom([], []) == []
  {
  }

  /** For every option string, printing what was parsed and parsing it again changes nothing. */
  lemma ParseJoinParse(s: string)
    ensures Parse(Join(Parse(s))) == Parse(s)
    ensures DistinctKeys(Parse(s))
  {
    hide ParseFrom, Clean, Join;
    ParsedIsClean([], s);
    PrintedParsesBack(Parse(s));
  }

  // ------------------------------------------------------------------ the agent's argument

  /** `FixLogfile` on Android: a relative log file is moved to the package's directory. */
  function FixLogfile(ps: seq<Pair>, packageName: string): seq<Pair>
    requires Has(ps, "logfile") ==> Lookup(ps, "logfile") != []
  {
    if !Has(ps, "logfile") || Lookup(ps, "logfile")[0] == '/' || packageName == [] then ps
    else Put(ps, "logfile", "/data/data/" + packageName + "/" + Lookup(ps, "logfile"))
  }

  /** The pairs put on top of the options, in order. */
  function Forced(ps: seq<Pair>, ddmActive: bool, address: string): seq<Pair> {
    Put(Put(Put(Put(Put(ps, "server", "y"), "suspend", "n"),
                "ddm_already_active", if ddmActive then "y" else "n"),
            "transport", "dt_fd_forward"),
        "address", address)
  }

  method FixLogfileOf(args: JdwpArgs, packageName: string)
    requires args.Valid() && (Has(args.Pairs(), "logfile") ==> Lookup(args.Pairs(), "logfile") != [])
    modifies args
    ensures args.Valid() && args.Pairs() == FixLogfile(old(args.Pairs()), packageName)
  {
    hide Put, Has, Lookup;
    var has := args.Contains("logfile");
    if !has {
      return;
    }
    var logfile := args.Get("logfile");
    if logfile[0] == '/' {
      return;
    }
    if packageName == [] {
      return;
    }
    args.PutPair("logfile", "/data/data/" + packageName + "/" + logfile);
  }

  /** A key of the options keeps a clean, hence non-empty, value through the forced pairs. */
  lemma LogfileNotEmpty(opts: string, ddmActive: bool, address: string)
    ensures var ps := Forced(Parse(opts), ddmActive, address);
            Has(ps, "logfile") ==> Lookup(ps, "logfile") != []
  {
    hide ParseFrom, Put, IndexOfKey;
    ParsedIsClean([], opts);
    var p0 := Parse(opts);
    if Has(p0, "logfile") { assert Clean(p0[IndexOfKey(p0, "logfile")]); }
    var k := "logfile";
    var p1 := Put(p0, "server", "y");
    PutEffect(p0, "server", "y", k);
    var p2 := Put(p1, "suspend", "n");
    PutEffect(p1, "suspend", "n", k);
    var p3 := Put(p2, "ddm_already_active", if ddmActive then "y" else "n");
    PutEffect(p2, "ddm_already_active", if ddmActive then "y" else "n", k);
    var p4 := Put(p3, "transport", "dt_fd_forward");
    PutEffect(p3, "transport", "dt_fd_forward", k);
    PutEffect(p4, "address", address, k);
  }

  /** The final pairs of the argument. */
  function AgentPairs(opts: string, ddmActive: bool, address: string, packageName: string): seq<Pair> {
    LogfileNotEmpty(opts, ddmActive, address);
    FixLogfile(Forced(Parse(opts), ddmActive, address), packageName)
  }

  method MakeAgentArg(agentName: string, opts: string, ddmActive: bool, address: string, packageName: string) returns (arg: string)
    ensures arg == agentName + "=" + Join(AgentPairs(opts, ddmActive, address, packageName))
  {
    hide Put, Parse, Join, FixLogfile, Has, Lookup;
    var parameters := new JdwpArgs(opts);
    parameters.PutPair("server", "y");
    parameters.PutPair("suspend", "n");
    var ddm := "n";
    if ddmActive {
      ddm := "y";
    }
    parameters.PutPair("ddm_already_active", ddm);
    parameters.PutPair("transport", "dt_fd_forward");
    parameters.PutPair("address", address);
    LogfileNotEmpty(opts, ddmActive, address);
    FixLogfileOf(parameters, packageName);
    var joined := parameters.JoinAll();
    arg := agentName + "=" + joined;
  }

  // ------------------------------------------------------------------ what the argument always says

  /** What a chain of puts does to one key: its value, and where it stands. */
  lemma ForcedKeeps(ps: seq<Pair>, ddmActive: bool, address: string, key: string)
    requires DistinctKeys(ps)
    ensures var r := Forced(ps, ddmActive, address);
            && DistinctKeys(r)
            && Lookup(r, "server") == "y" && Lookup(r, "suspend") == "n"
            && Lookup(r, "transport") == "dt_fd_forward" && Lookup(r, "address") == address
            && (Has(ps, key) ==> IndexOfKey(r, key) == IndexOfKey(ps, key))
            && (!Has(ps, "transport") ==> |ps| <= IndexOfKey(r, "transport"))
            && (!Has(ps, "address") ==> |ps| <= IndexOfKey(r, "address"))
            && (!Has(ps, "transport") && !Has(ps, "address") ==> IndexOfKey(r, "transport") < IndexOfKey(r, "address"))
            && Has(r, "transport") && Has(r, "address")
  {
    hide Put, IndexOfKey, Has, Lookup;
    var ddm := if ddmActive then "y" else "n";
    var p1 := Put(ps, "server", "y");
    var p2 := Put(p1, "suspend", "n");
    var p3 := Put(p2, "ddm_already_active", ddm);
    var p4 := Put(p3, "transport", "dt_fd_forward");
    PutChain(ps, "server", "y", key);
    PutChain(p1, "suspend", "n", key);
    PutChain(p2, "ddm_already_active", ddm, key);
    PutChain(p3, "transport", "dt_fd_forward", key);
    PutChain(p4, "address", address, key);
  }

  /** One put, for all the keys the argument is about. */
  lemma PutChain(ps: seq<Pair>, key: string, value: string, other: string)
    requires DistinctKeys(ps)
    ensures var q := Put(ps, key, value);
            && DistinctKeys(q) && |ps| <= |q|
            && Has(q, key) && Lookup(q, key) == value
            && (!Has(ps, key) ==> IndexOfKey(q, key) == |ps| && |q| == |ps| + 1)
            && (Has(ps, other) ==> Has(q, other) && IndexOfKey(q, other) == IndexOfKey(ps, other) < |ps|)
            && Kept(ps, q, key, "server") && Kept(ps, q, key, "suspend") && Kept(ps, q, key, "transport") && Kept(ps, q, key, "address")
  {
    hide IndexOfKey, DistinctKeys;
    PutEffect(ps, key, value, other);
    PutEffect(ps, key, value, "server");
    PutEffect(ps, key, value, "suspend");
    PutEffect(ps, key, value, "transport");
    PutEffect(ps, key, value, "address");
  }

  /** Going from `ps` to `q` by a put of `key` leaves `other` alone. */
  predicate Kept(ps: seq<Pair>, q: seq<Pair>, key: string, other: string) {
    && (Has(ps, other) ==> Has(q, other) && IndexOfKey(q, other) == IndexOfKey(ps, other) < |ps|)
    && (other != key ==> Has(q, other) == Has(ps, other) && Lookup(q, other) == Lookup(ps, other))
  }

  lemma FixKeeps(ps: seq<Pair>, packageName: string)
    requires DistinctKeys(ps) && (Has(ps, "logfile") ==> Lookup(ps, "logfile") != [])
    ensures var r := FixLogfile(ps, packageName);
            && DistinctKeys(r)
            && Lookup(r, "server") == Lookup(ps, "server") && Lookup(r, "suspend") == Lookup(ps, "suspend")
            && (Has(ps, "transport") ==> IndexOfKey(r, "transport") == IndexOfKey(ps, "transport"))
            && (Has(ps, "address") ==> IndexOfKey(r, "address") == IndexOfKey(ps, "address"))
  {
    hide Put, IndexOfKey, DistinctKeys;
    var value := if Has(ps, "logfile") then "/data/data/" + packageName + "/" + Lookup(ps, "logfile") else [];
    PutChain(ps, "logfile", value, "logfile");
  }

  /** What the options on top of the given ones are, for any key. */
  lemma ForcedValue(ps: seq<Pair>, ddmActive: bool, address: string, key: string)
    requires DistinctKeys(ps)
    ensures var r := Forced(ps, ddmActive, address);
            && DistinctKeys(r)
            && (Has(r, key) <==> Has(ps, key) || key in ["server", "suspend", "ddm_already_active", "transport", "address"])
            && (key == "server" ==> Lookup(r, key) == "y")
            && (key == "suspend" ==> Lookup(r, key) == "n")
            && (key == "ddm_already_active" ==> Lookup(r, key) == if ddmActive then "y" else "n")
            && (key == "transport" ==> Lookup(r, key) == "dt_fd_forward")
            && (key == "address" ==> Lookup(r, key) == address)
            && (key !in ["server", "suspend", "ddm_already_active", "transport", "address"] ==> Lookup(r, key) == Lookup(ps, key))
  {
    hide Put, IndexOfKey, Has, Lookup;
    var ddm := if ddmActive then "y" else "n";
    var p1 := Put(ps, "server", "y");
    PutEffect(ps, "server", "y", key);
    var p2 := Put(p1, "suspend", "n");
    PutEffect(p1, "suspend", "n", key);
    var p3 := Put(p2, "ddm_already_active", ddm);
    PutEffect(p2, "ddm_already_active", ddm, key);
    var p4 := Put(p3, "transport", "dt_fd_forward");
    PutEffect(p3, "transport", "dt_fd_forward", key);
    PutEffect(p4, "address", address, key);
  }

  /**
    * Every key of the argument. The forced ones have their values whatever the options say; a log
    * file of the options that is relative is moved to the package's directory; all other keys are
    * there if and only if the options have them, with the values of the options.
    */
  lemma ArgumentSays(opts: string, ddmActive: bool, address: string, packageName: string, key: string)
    ensures var r, ps := AgentPairs(opts, ddmActive, address, packageName), Parse(opts);
            && (key == "server" ==> Has(r, key) && Lookup(r, key) == "y")
            && (key == "suspend" ==> Has(r, key) && Lookup(r, key) == "n")
            && (key == "ddm_already_active" ==> Has(r, key) && Lookup(r, key) == if ddmActive then "y" else "n")
            && (key == "transport" ==> Has(r, key) && Lookup(r, key) == "dt_fd_forward")
            && (key == "address" ==> Has(r, key) && Lookup(r, key) == address)
            && (key !in ["server", "suspend", "ddm_already_active", "transport", "address"] ==>
                  && Has(r, key) == Has(ps, key)
                  && Lookup(r, key)
                     == if key == "logfile" && Has(ps, key) && !("/" <= Lookup(ps, key)) && packageName != ""
                        then "/data/data/" + packageName + "/" + Lookup(ps, key)
                        else Lookup(ps, key))
  {
    hide Parse, Forced, DistinctKeys, Put, Has, Lookup;
    ParseJoinParse(opts);
    LogfileNotEmpty(opts, ddmActive, address);
    var ps := Parse(opts);
    ForcedValue(ps, ddmActive, address, key);
    ForcedValue(ps, ddmActive, address, "logfile");
    var r := Forced(ps, ddmActive, address);
    var value := if Has(r, "logfile") then "/data/data/" + packageName + "/" + Lookup(r, "logfile") else [];
    PutEffect(r, "logfile", value, key);
    assert "/" == ['/'];
  }

  /** In the pairs the agent is always a server and never asks for suspension, whatever the options say. */
  lemma ArgumentIsServer(opts: string, ddmActive: bool, address: string, packageName: string)
    ensures Lookup(AgentPairs(opts, ddmActive, address, packageName), "server") == "y"
    ensures Lookup(AgentPairs(opts, ddmActive, address, packageName), "suspend") == "n"
  {
    hide Parse, Forced, FixLogfile, DistinctKeys;
    ParseJoinParse(opts);
    LogfileNotEmpty(opts, ddmActive, address);
    ForcedKeeps(Parse(opts), ddmActive, address, []);
    FixKeeps(Forced(Parse(opts), ddmActive, address), packageName);
  }

  /**
    * The transport must come before the address. It does exactly when the options do not name an
    * address, or name the transport before it.
    */
  lemma TransportBeforeAddress(opts: string, ddmActive: bool, address: string, packageName: string)
    ensures var r, ps := AgentPairs(opts, ddmActive, address, packageName), Parse(opts);
            IndexOfKey(r, "transport") < IndexOfKey(r, "address")
            <==> !Has(ps, "address") || IndexOfKey(ps, "transport") < IndexOfKey(ps, "address")
  {
    hide Parse, Forced, FixLogfile, DistinctKeys, Put;
    ParseJoinParse(opts);
    LogfileNotEmpty(opts, ddmActive, address);
    ForcedKeeps(Parse(opts), ddmActive, address, "transport");
    ForcedKeeps(Parse(opts), ddmActive, address, "address");
    FixKeeps(Forced(Parse(opts), ddmActive, address), packageName);
  }

  /** Options that name an address, and no transport before it: the transport comes too late. */
  lemma AddressNamedFirst(ddmActive: bool, address: string, packageName: string)
    ensures var r := AgentPairs("address=1", ddmActive, address, packageName);
            IndexOfKey(r, "transport") > IndexOfKey(r, "address")
  {
    hide AgentPairs, Parse, Join;
    var ps: seq<Pair> := [("address", "1")];
    JoinIsPrinted(ps);
    assert Join(ps) == "address=1";
    PrintedParsesBack(ps);
    TransportBeforeAddress("address=1", ddmActive, address, packageName);
    KeysDiffer(AgentPairs("address=1", ddmActive, address, packageName), ddmActive, address, packageName);
  }

  lemma KeysDiffer(r: seq<Pair>, ddmActive: bool, address: string, packageName: string)
    requires r == AgentPairs("address=1", ddmActive, address, packageName)
    ensures IndexOfKey(r, "transport") != IndexOfKey(r, "address")
  {
    hide Parse, Forced, FixLogfile, DistinctKeys;
    ParseJoinParse("address=1");
    LogfileNotEmpty("address=1", ddmActive, address);
    ForcedKeeps(Parse("address=1"), ddmActive, address, []);
    FixKeeps(Forced(Parse("address=1"), ddmActive, address), packageName);
  }

  // ------------------------------------------------------------------ the argument as text

  /** Nothing that ends a token or is dropped from it. */
  predicate Plain(s: string) {
    forall c | c in s :: !IsSpace(c) && c != ','
  }

  /** `FixLogfile` puts the package's name into the argument: the options name a relative log file. */
  predicate MovesLogfile(ps: seq<Pair>, packageName: string) {
    Has(ps, "logfile") && Lookup(ps, "logfile") != [] && Lookup(ps, "logfile")[0] != '/' && packageName != []
  }

  lemma ForcedLogfile(ps: seq<Pair>, ddmActive: bool, address: string)
    requires DistinctKeys(ps)
    ensures var r := Forced(ps, ddmActive, address);
            Has(r, "logfile") == Has(ps, "logfile") && Lookup(r, "logfile") == Lookup(ps, "logfile")
  {
    hide Put, Has, Lookup, DistinctKeys;
    var k, d := "logfile", if ddmActive then "y" else "n";
    var p1 := Put(ps, "server", "y");
    PutEffect(ps, "server", "y", k);
    var p2 := Put(p1, "suspend", "n");
    PutEffect(p1, "suspend", "n", k);
    var p3 := Put(p2, "ddm_already_active", d);
    PutEffect(p2, "ddm_already_active", d, k);
    var p4 := Put(p3, "transport", "dt_fd_forward");
    PutEffect(p3, "transport", "dt_fd_forward", k);
    PutEffect(p4, "address", address, k);
  }

  lemma FlagsClean()
    ensures Clean(("server", "y")) && Clean(("suspend", "n"))
  {
  }

  lemma TransportClean()
    ensures Clean(("transport", "dt_fd_forward"))
  {
  }

  lemma ActiveClean(ddmActive: bool)
    ensures Clean(("ddm_already_active", if ddmActive then "y" else "n"))
  {
  }

  lemma ForcedPairsClean(ddmActive: bool)
    ensures Clean(("server", "y")) && Clean(("suspend", "n")) && Clean(("transport", "dt_fd_forward"))
    ensures Clean(("ddm_already_active", if ddmActive then "y" else "n"))
  {
    hide Clean;
    FlagsClean();
    TransportClean();
    ActiveClean(ddmActive);
  }

  lemma ForcedClean(ps: seq<Pair>, ddmActive: bool, address: string)
    requires AllClean(ps) && DistinctKeys(ps) && Clean(("address", address))
    ensures AllClean(Forced(ps, ddmActive, address)) && DistinctKeys(Forced(ps, ddmActive, address))
  {
    hide Put, Clean, AllClean, DistinctKeys;
    ForcedPairsClean(ddmActive);
    var d := if ddmActive then "y" else "n";
    var p1 := Put(ps, "server", "y");
    PutKeepsClean(ps, "server", "y");
    var p2 := Put(p1, "suspend", "n");
    PutKeepsClean(p1, "suspend", "n");
    var p3 := Put(p2, "ddm_already_active", d);
    PutKeepsClean(p2, "ddm_already_active", d);
    var p4 := Put(p3, "transport", "dt_fd_forward");
    PutKeepsClean(p3, "transport", "dt_fd_forward");
    PutKeepsClean(p4, "address", address);
  }

  lemma MovedIsClean(packageName: string, logfile: string)
    requires logfile != [] && logfile[|logfile| - 1] != '=' && Plain(logfile)
    ensures Clean(("logfile", "/data/data/" + packageName + "/" + logfile)) <==> Plain(packageName)
  {
    var value := "/data/data/" + packageName + "/" + logfile;
    assert value[|value| - 1] == logfile[|logfile| - 1];
    assert forall c | c in "logfile" :: !IsSpace(c) && c != ',' && c != '=';
    if Plain(packageName) {
      forall c | c in value ensures !IsSpace(c) && c != ',' {
        assert c in "/data/data/" || c in packageName || c in "/" || c in logfile;
      }
    }
    assert forall c | c in packageName :: c in value;
  }

  lemma CleanAt(ps: seq<Pair>, key: string)
    requires AllClean(ps) && Has(ps, key)
    ensures Clean((key, Lookup(ps, key))) && Lookup(ps, key) != []
    ensures Lookup(ps, key)[|Lookup(ps, key)| - 1] != '=' && Plain(Lookup(ps, key))
  {
    assert ps[IndexOfKey(ps, key)] == (key, Lookup(ps, key));
  }

  lemma FixIs(ps: seq<Pair>, packageName: string)
    requires Has(ps, "logfile") ==> Lookup(ps, "logfile") != []
    ensures FixLogfile(ps, packageName)
         == if MovesLogfile(ps, packageName) then Put(ps, "logfile", "/data/data/" + packageName + "/" + Lookup(ps, "logfile")) else ps
  {
    hide Put, Has, Lookup;
  }

  lemma MovesSame(f: seq<Pair>, ps: seq<Pair>, packageName: string)
    requires Has(f, "logfile") == Has(ps, "logfile") && Lookup(f, "logfile") == Lookup(ps, "logfile")
    ensures MovesLogfile(f, packageName) == MovesLogfile(ps, packageName)
    ensures MovesLogfile(ps, packageName) ==> Has(ps, "logfile")
  {
    hide Has, Lookup;
  }

  /** Moving the log file, in a list that is clean if its address is. */
  lemma FixedClean(f: seq<Pair>, ps: seq<Pair>, address: string, packageName: string)
    requires AllClean(ps) && DistinctKeys(f) && (Has(f, "logfile") ==> Lookup(f, "logfile") != [])
    requires Has(f, "logfile") == Has(ps, "logfile") && Lookup(f, "logfile") == Lookup(ps, "logfile")
    requires Has(f, "address") && Lookup(f, "address") == address && (Clean(("address", address)) ==> AllClean(f))
    ensures var r := FixLogfile(f, packageName);
            && DistinctKeys(r)
            && (AllClean(r) <==> Clean(("address", address)) && (MovesLogfile(ps, packageName) ==> Plain(packageName)))
  {
    hide *;
    FixIs(f, packageName);
    MovesSame(f, ps, packageName);
    var r := FixLogfile(f, packageName);
    if MovesLogfile(ps, packageName) {
      var value := "/data/data/" + packageName + "/" + Lookup(ps, "logfile");
      CleanAt(ps, "logfile");
      MovedIsClean(packageName, Lookup(ps, "logfile"));
      PutEffect(f, "logfile", value, "address");
      if Clean(("address", address)) && Plain(packageName) { PutKeepsClean(f, "logfile", value); }
      if AllClean(r) { CleanAt(r, "logfile"); }
    }
    if AllClean(r) { CleanAt(r, "address"); }
  }

  /** When every pair of the argument survives being printed and split again. */
  lemma AgentPairsClean(opts: string, ddmActive: bool, address: string, packageName: string)
    ensures var r := AgentPairs(opts, ddmActive, address, packageName);
            && DistinctKeys(r)
            && (AllClean(r) <==> Clean(("address", address)) && (MovesLogfile(Parse(opts), packageName) ==> Plain(packageName)))
  {
    var ps := Parse(opts);
    ParsedIsClean([], opts);
    LogfileNotEmpty(opts, ddmActive, address);
    hide Parse, Forced, FixLogfile, Has, Lookup, Clean, AllClean, DistinctKeys, Plain, MovesLogfile;
    ForcedLogfile(ps, ddmActive, address);
    ForcedKeeps(ps, ddmActive, address, []);
    if Clean(("address", address)) { ForcedClean(ps, ddmActive, address); }
    FixedClean(Forced(ps, ddmActive, address), ps, address, packageName);
  }

  /**
    * The agent splits the text it is given. It finds exactly the pairs put together for it if and
    * only if the address is a token's value and a package name that is used has no comma or space.
    */
  lemma TextSaysThePairs(opts: string, ddmActive: bool, address: string, packageName: string)
    ensures var r := AgentPairs(opts, ddmActive, address, packageName);
            Parse(Join(r)) == r
            <==> Clean(("address", address)) && (MovesLogfile(Parse(opts), packageName) ==> Plain(packageName))
  {
    var r := AgentPairs(opts, ddmActive, address, packageName);
    AgentPairsClean(opts, ddmActive, address, packageName);
    ParsedIsClean([], Join(r));
    hide AgentPairs, Clean, AllClean, MovesLogfile, Plain;
    if AllClean(r) { PrintedParsesBack(r); }
  }

  /** Then the text makes the agent a server that does not suspend. */
  lemma TextIsServer(opts: string, ddmActive: bool, address: string, packageName: string)
    requires Clean(("address", address)) && (MovesLogfile(Parse(opts), packageName) ==> Plain(packageName))
    ensures var text := Join(AgentPairs(opts, ddmActive, address, packageName));
            Lookup(Parse(text), "server") == "y" && Lookup(Parse(text), "suspend") == "n"
  {
    hide AgentPairs, Parse, Join, Clean, Plain, MovesLogfile;
    TextSaysThePairs(opts, ddmActive, address, packageName);
    ArgumentIsServer(opts, ddmActive, address, packageName);
  }

  lemma {:induction false} OtherTokensKeep(done: seq<Pair>, ps: seq<Pair>, key: string)
    requires AllClean(ps) && DistinctKeys(done) && Has(done, key) && ps != [] && forall i | 0 <= i < |ps| :: ps[i].0 != key
    ensures Lookup(ParseFrom(done, Printed(ps)), key) == Lookup(done, key)
    decreases |ps|
  {
    hide ParseFrom, Put, Clean, Printed, Has, Lookup, DistinctKeys;
    PrintedIs(ps);
    FirstClean(ps);
    OneToken(done, ps[0], Printed(ps[1..]));
    PutEffect(done, ps[0].0, ps[0].1, key);
    if |ps| > 1 { OtherTokensKeep(Put(done, ps[0].0, ps[0].1), ps[1..], key); }
  }

  /** The options of the run below. */
  const RELATIVE_LOG: string := "server=y,logfile=x"

  lemma OptionsClean()
    ensures Clean(("server", "y")) && Clean(("logfile", "x"))
  {
  }

  lemma OptionsText()
    ensures Printed([("server", "y"), ("logfile", "x")]) == RELATIVE_LOG
  {
    assert [("server", "y"), ("logfile", "x")][1..] == [("logfile", "x")];
  }

  lemma ParsedOptions()
    ensures Parse(RELATIVE_LOG) == [("server", "y"), ("logfile", "x")]
  {
    hide Parse, Join, Printed, Clean;
    OptionsText();
    OptionsClean();
    JoinIsPrinted([("server", "y"), ("logfile", "x")]);
    PrintedParsesBack([("server", "y"), ("logfile", "x")]);
  }

  lemma ForcedOptions(ddmActive: bool, address: string)
    ensures Forced([("server", "y"), ("logfile", "x")], ddmActive, address)
         == [("server", "y"), ("logfile", "x"), ("suspend", "n"), ("ddm_already_active", if ddmActive then "y" else "n"),
             ("transport", "dt_fd_forward"), ("address", address)]
  {
    var d := if ddmActive then "y" else "n";
    var p1: seq<Pair> := [("server", "y"), ("logfile", "x")];
    var p2 := p1 + [("suspend", "n")];
    var p3 := p2 + [("ddm_already_active", d)];
    var p4 := p3 + [("transport", "dt_fd_forward")];
    IndexUnique(p1, "server", 0);
    IndexAbsent(p1, "suspend");
    IndexAbsent(p2, "ddm_already_active");
    IndexAbsent(p3, "transport");
    IndexAbsent(p4, "address");
    hide IndexOfKey;
    assert Put(p1, "server", "y") == p1;
    assert Put(p1, "suspend", "n") == p2;
    assert Put(p2, "ddm_already_active", d) == p3;
    assert Put(p3, "transport", "dt_fd_forward") == p4;
  }

  /**
    * Without that condition the text can say something else: a package name with a comma in it ends
    * the log file's token, and what follows takes the server's place.
    */
  lemma PackageNameOverrides(ddmActive: bool, address: string)
    requires Clean(("address", address))
    ensures var text := Join(AgentPairs(RELATIVE_LOG, ddmActive, address, "a,server=n"));
            Lookup(Parse(text), "server") == "n/x"
  {
    var tail: seq<Pair> :=
      [("suspend", "n"), ("ddm_already_active", if ddmActive then "y" else "n"), ("transport", "dt_fd_forward"), ("address", address)];
    ParsedOptions();
    ForcedOptions(ddmActive, address);
    OverridingText(tail);
    TailIsClean(ddmActive, address, tail);
    OverridingPairs(ddmActive, address, tail);
    hide *;
    JoinIsPrinted([("server", "y"), ("logfile", "/data/data/a,server=n/x")] + tail);
    SplitText(tail);
  }

  lemma TailIsClean(ddmActive: bool, address: string, tail: seq<Pair>)
    requires Clean(("address", address))
    requires tail == [("suspend", "n"), ("ddm_already_active", if ddmActive then "y" else "n"), ("transport", "dt_fd_forward"), ("address", address)]
    ensures AllClean(tail) && tail != [] && forall i | 0 <= i < |tail| :: tail[i].0 != "server"
  {
    hide Clean;
    ForcedPairsClean(ddmActive);
  }

  lemma OverridingPairs(ddmActive: bool, address: string, tail: seq<Pair>)
    requires tail == [("suspend", "n"), ("ddm_already_active", if ddmActive then "y" else "n"), ("transport", "dt_fd_forward"), ("address", address)]
    ensures AgentPairs(RELATIVE_LOG, ddmActive, address, "a,server=n")
         == [("server", "y"), ("logfile", "/data/data/a,server=n/x")] + tail
  {
    hide Parse, Forced;
    ParsedOptions();
    ForcedOptions(ddmActive, address);
    var f: seq<Pair> := [("server", "y"), ("logfile", "x")] + tail;
    IndexUnique(f, "logfile", 1);
    hide IndexOfKey;
    assert Forced(Parse(RELATIVE_LOG), ddmActive, address) == f;
    assert "/data/data/" + "a,server=n" + "/" + "x" == "/data/data/a,server=n/x";
    assert f[1 := ("logfile", "/data/data/a,server=n/x")] == [("server", "y"), ("logfile", "/data/data/a,server=n/x")] + tail;
  }

  /** The text of those pairs is the text of a list with one pair more. */
  lemma OverridingText(tail: seq<Pair>)
    requires tail != []
    ensures Printed([("server", "y"), ("logfile", "/data/data/a,server=n/x")] + tail)
         == Token(("server", "y")) + "," + (Token(("logfile", "/data/data/a")) + "," + (Token(("server", "n/x")) + "," + Printed(tail)))
  {
    var ps: seq<Pair> := [("server", "y"), ("logfile", "/data/data/a,server=n/x")] + tail;
    PrintedIs(ps);
    PrintedIs(ps[1..]);
    assert ps[1..][0] == ("logfile", "/data/data/a,server=n/x") && ps[1..][1..] == tail;
    assert Token(("logfile", "/data/data/a,server=n/x")) == Token(("logfile", "/data/data/a")) + "," + Token(("server", "n/x"));
  }

  lemma SplitText(tail: seq<Pair>)
    requires AllClean(tail) && tail != [] && forall i | 0 <= i < |tail| :: tail[i].0 != "server"
    ensures var text := Token(("server", "y")) + "," + (Token(("logfile", "/data/data/a")) + "," + (Token(("server", "n/x")) + "," + Printed(tail)));
            Lookup(ParseFrom([], text), "server") == "n/x" && Parse(text) == ParseFrom([], text)
  {
    hide *;
    OverridingClean();
    NoPairsDistinct();
    var t3 := Printed(tail);
    var t2 := Token(("server", "n/x")) + "," + t3;
    var t1 := Token(("logfile", "/data/data/a")) + "," + t2;
    var p1 := Put([], "server", "y");
    var p2 := Put(p1, "logfile", "/data/data/a");
    OneToken([], ("server", "y"), t1);
    OneToken(p1, ("logfile", "/data/data/a"), t2);
    OneToken(p2, ("server", "n/x"), t3);
    PutEffect([], "server", "y", "server");
    PutEffect(p1, "logfile", "/data/data/a", "server");
    PutEffect(p2, "server", "n/x", "server");
    OtherTokensKeep(Put(p2, "server", "n/x"), tail, "server");
    StartOfParse(Token(("server", "y")) + "," + t1);
  }

  lemma OverridingClean()
    ensures Clean(("server", "y")) && Clean(("logfile", "/data/data/a")) && Clean(("server", "n/x"))
  {
  }

  lemma NoPairsDistinct()
    ensures DistinctKeys([])
  {
  }
}
