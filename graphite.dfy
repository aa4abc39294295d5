/**
 * The carbon client of the command line tool: the metric key of each actor,
 * the rule that renews the session every ten minutes while polling, and the
 * plaintext line sent for each reading.
 *
 * The clock and the socket are not modelled: clock readings are parameters,
 * and a "sent" line is the string that would be written.
 */
module Graphite {
  import opened Wrappers
  import opened Text
  import FritzHome

  /** The characters the key pattern `[^A-Za-z0-9]+` leaves alone. */
  predicate IsAlnum(c: char) {
    'A' <= c <= 'Z' || 'a' <= c <= 'z' || '0' <= c <= '9'
  }

  /**
   * `re.sub('[^A-Za-z0-9]+', '_', name)`: every maximal run of other
   * characters becomes one underscore.
   */
  function Sanitize(name: string): (r: string)
    ensures |r| <= |name|
    ensures r == [] <==> name == []
  {
    if name == [] then []
    else
      var init := name[..|name| - 1];
      var c := name[|name| - 1];
      if IsAlnum(c) then Sanitize(init) + [c]
      else if init != [] && !IsAlnum(init[|init| - 1]) then Sanitize(init)
      else Sanitize(init) + "_"
  }

  /** A string of letters, digits and single underscores. */
  predicate IsClean(s: string) {
    (forall i :: 0 <= i < |s| ==> IsAlnum(s[i]) || s[i] == '_')
    && forall i :: 0 < i < |s| ==> !(s[i - 1] == '_' && s[i] == '_')
  }

  /**
   * A sanitised name holds only letters, digits and underscores, never two
   * underscores in a row, and ends in an underscore exactly when the name
   * ends in a replaced character.
   */
  lemma {:induction false} SanitizeIsClean(name: string)
    ensures IsClean(Sanitize(name))
    ensures name != [] ==> (Sanitize(name)[|Sanitize(name)| - 1] == '_' <==> !IsAlnum(name[|name| - 1]))
  {
    if name != [] {
      var init := name[..|name| - 1];
      var c := name[|name| - 1];
      SanitizeIsClean(init);
      var p := Sanitize(init);
      var r := Sanitize(name);
      if IsAlnum(c) || init == [] || IsAlnum(init[|init| - 1]) {
        var x := if IsAlnum(c) then c else '_';
        assert r == p + [x];
        forall i | 0 <= i < |r| ensures IsAlnum(r[i]) || r[i] == '_' {
          if i < |p| { assert r[i] == p[i]; }
        }
        forall i | 0 < i < |r| ensures !(r[i - 1] == '_' && r[i] == '_') {
          if i < |p| { assert r[i - 1] == p[i - 1] && r[i] == p[i]; }
          else { assert r[i - 1] == p[|p| - 1]; }
        }
      }
    }
  }

  /** The letters and digits of a string, in order. */
  function Alnums(s: string): string {
    if s == [] then []
    else Alnums(s[..|s| - 1]) + (if IsAlnum(s[|s| - 1]) then [s[|s| - 1]] else [])
  }

  /** Sanitising keeps every letter and digit of the name, in order, and adds none. */
  lemma {:induction false} SanitizeKeepsAlnums(name: string)
    ensures Alnums(Sanitize(name)) == Alnums(name)
  {
    if name != [] {
      var init := name[..|name| - 1];
      var c := name[|name| - 1];
      SanitizeKeepsAlnums(init);
      var p := Sanitize(init);
      if IsAlnum(c) || init == [] || IsAlnum(init[|init| - 1]) {
        var x := if IsAlnum(c) then c else '_';
        var r := p + [x];
        assert r[..|r| - 1] == p;
        assert Alnums(r) == Alnums(p) + (if IsAlnum(x) then [x] else []);
      }
    }
  }

  /** Sanitising leaves a clean string as it is. */
  lemma {:induction false} SanitizeClean(s: string)
    requires IsClean(s)
    ensures Sanitize(s) == s
  {
    if s != [] {
      var init := s[..|s| - 1];
      assert IsClean(init) by {
        assert forall i :: 0 <= i < |init| ==> init[i] == s[i];
      }
      SanitizeClean(init);
      if !IsAlnum(s[|s| - 1]) && init != [] {
        assert s[|s| - 1] == '_';
        assert init[|init| - 1] == s[|s| - 2];
      }
      assert s == init + [s[|s| - 1]];
    }
  }

  /** Sanitising twice is sanitising once. */
  lemma {:induction false} SanitizeIdempotent(name: string)
    ensures Sanitize(Sanitize(name)) == Sanitize(name)
  {
    SanitizeIsClean(name);
    SanitizeClean(Sanitize(name));
  }

  /** What sanitising one more character adds: the character, nothing inside a run, or the underscore that starts one. */
  function Appended(s: string, c: char): string {
    if IsAlnum(c) then [c]
    else if s != [] && !IsAlnum(s[|s| - 1]) then []
    else "_"
  }

  /** Only the last character of what came before decides what one more character adds. */
  lemma {:induction false} AppendedLast(a: string, b: string, c: char)
    requires a != [] && b != [] && a[|a| - 1] == b[|b| - 1]
    ensures Appended(a, c) == Appended(b, c)
  {
  }

  lemma {:induction false} SanitizeSnoc(s: string, c: char)
    ensures Sanitize(s + [c]) == Sanitize(s) + Appended(s, c)
  {
    assert (s + [c])[..|s|] == s;
  }

  /** One character after a letter or digit, or at the start, sanitises on its own. */
  lemma {:induction false} SanitizeConcatOne(x: string, c: char)
    requires IsAlnum(c) || x == [] || IsAlnum(x[|x| - 1])
    ensures Sanitize(x + [c]) == Sanitize(x) + Sanitize([c])
  {
    SanitizeSnoc(x, c);
    SanitizeSnoc([], c);
    assert [] + [c] == [c];
    assert Appended(x, c) == Appended([], c);
  }

  /** A split that holds before the last character of the second part still holds after it. */
  lemma {:induction false} SanitizeConcatLast(x: string, y: string, c: char)
    requires y != [] && Sanitize(x + y) == Sanitize(x) + Sanitize(y)
    ensures Sanitize(x + y + [c]) == Sanitize(x) + Sanitize(y + [c])
  {
    var xy := x + y;
    SanitizeSnoc(xy, c);
    SanitizeSnoc(y, c);
    assert xy[|xy| - 1] == y[|y| - 1];
    AppendedLast(xy, y, c);
  }

  /**
   * A name sanitises part by part when cut anywhere but inside a run of
   * replaced characters: before a letter or digit, or after one.
   */
  lemma {:induction false} SanitizeConcat(x: string, y: string)
    requires y != [] && (IsAlnum(y[0]) || x == [] || IsAlnum(x[|x| - 1]))
    ensures Sanitize(x + y) == Sanitize(x) + Sanitize(y)
    decreases |y|
  {
    var y', c := y[..|y| - 1], y[|y| - 1];
    assert y == y' + [c];
    assert x + y == x + y' + [c];
    if y' == [] {
      SanitizeConcatOne(x, c);
    } else {
      SanitizeConcat(x, y');
      SanitizeConcatLast(x, y', c);
    }
  }

  /** A non-empty run of replaced characters becomes a single underscore. */
  lemma {:induction false} SanitizeRun(run: string)
    requires run != [] && forall i :: 0 <= i < |run| ==> !IsAlnum(run[i])
    ensures Sanitize(run) == "_"
    decreases |run|
  {
    var init := run[..|run| - 1];
    if init == [] {
      assert Sanitize(run) == Sanitize(init) + "_";
    } else {
      assert forall i :: 0 <= i < |init| ==> init[i] == run[i];
      SanitizeRun(init);
      assert !IsAlnum(init[|init| - 1]);
    }
  }

  /** The carbon key of an actor: the prefix, a dot, and the sanitised name. */
  function CarbonKey(prefix: string, name: string): (key: string)
    ensures |key| == |prefix| + 1 + |Sanitize(name)|
    ensures key[..|prefix| + 1] == prefix + "."
    ensures key[|prefix| + 1..] == Sanitize(name)
  {
    prefix + "." + Sanitize(name)
  }

  /** A key made from a prefix without blanks or line breaks has none either. */
  lemma {:induction false} CarbonKeyPlain(prefix: string, name: string)
    requires ' ' !in prefix && '\n' !in prefix
    ensures ' ' !in CarbonKey(prefix, name) && '\n' !in CarbonKey(prefix, name)
  {
    var key := CarbonKey(prefix, name);
    var s := Sanitize(name);
    SanitizeIsClean(name);
    assert !IsAlnum(' ') && !IsAlnum('\n');
    forall i | 0 <= i < |key| ensures key[i] != ' ' && key[i] != '\n' {
      if i < |prefix| {
        assert key[i] == prefix[i];
      } else if i > |prefix| {
        assert key[i] == s[i - |prefix| - 1];
      }
    }
  }

  /**
   * The key table of `graphite`: one entry per actor name, the key of that
   * name. Actors sharing a name share one entry.
   */
  method CarbonKeys(prefix: string, actors: seq<FritzHome.Actor>) returns (keys: map<string, string>)
    ensures keys.Keys == set i | 0 <= i < |actors| :: actors[i].name
    ensures forall name :: name in keys ==> keys[name] == CarbonKey(prefix, name)
  {
    keys := map[];
    var i := 0;
    while i < |actors|
      invariant 0 <= i <= |actors|
      invariant keys.Keys == set j | 0 <= j < i :: actors[j].name
      invariant forall name :: name in keys ==> keys[name] == CarbonKey(prefix, name)
    {
      keys := keys[actors[i].name := CarbonKey(prefix, actors[i].name)];
      i := i + 1;
    }
  }

  // ---- the session lifetime ----

  /** How long, in seconds, the tool trusts a session before renewing it. */
  const SidLifetime: real := 600.0

  /**
   * One polling round: the clock at the check, the clock right after a login
   * made then, and whether that login would fail (`LoginFails` of the replies
   * it would get), which raises out of the loop and ends the tool.
   */
  datatype Round = Round(check: real, afterLogin: real, loginFails: bool)

  /** A round logs in again exactly when its check is past the deadline. */
  predicate Renews(ttl: real, round: Round) {
    round.check > ttl
  }

  /** A round ends the polling loop when it logs in again and that login fails. */
  predicate Ends(ttl: real, round: Round) {
    Renews(ttl, round) && round.loginFails
  }

  /** The deadline after a round: renewed from the reading taken after the login, or kept. */
  function NextTtl(ttl: real, round: Round): (next: real)
    ensures round.check <= round.afterLogin ==> ttl <= next
    ensures Renews(ttl, round) && round.check <= round.afterLogin ==> next >= round.check + SidLifetime
  {
    if Renews(ttl, round) then round.afterLogin + SidLifetime else ttl
  }

  /**
   * For each round of the polling loop that runs, whether it logged in again;
   * the loop stops after a round whose renewal fails.
   */
  function Logins(ttl: real, rounds: seq<Round>): (r: seq<bool>)
    ensures |r| <= |rounds|
    ensures rounds != [] ==> r != []
    decreases |rounds|
  {
    if rounds == [] then []
    else if Ends(ttl, rounds[0]) then [true]
    else [Renews(ttl, rounds[0])] + Logins(NextTtl(ttl, rounds[0]), rounds[1..])
  }

  /** The deadline in force at each round of the polling loop that runs. */
  function Ttls(ttl: real, rounds: seq<Round>): (r: seq<real>)
    ensures |r| == |Logins(ttl, rounds)|
    decreases |rounds|
  {
    if rounds == [] then []
    else if Ends(ttl, rounds[0]) then [ttl]
    else [ttl] + Ttls(NextTtl(ttl, rounds[0]), rounds[1..])
  }

  /**
   * The loop starts with the given deadline, and a round logs in again
   * exactly when its check is past the deadline in force.
   */
  lemma {:induction false} LoginsPastDeadline(ttl: real, rounds: seq<Round>)
    ensures rounds != [] ==> Ttls(ttl, rounds)[0] == ttl
    ensures forall j :: 0 <= j < |Logins(ttl, rounds)| ==>
              (Logins(ttl, rounds)[j] <==> rounds[j].check > Ttls(ttl, rounds)[j])
    decreases |rounds|
  {
    if rounds != [] && !Ends(ttl, rounds[0]) {
      var tail := rounds[1..];
      var ttl' := NextTtl(ttl, rounds[0]);
      LoginsPastDeadline(ttl', tail);
      var l, t := Logins(ttl, rounds), Ttls(ttl, rounds);
      var l', t' := Logins(ttl', tail), Ttls(ttl', tail);
      assert l == [Renews(ttl, rounds[0])] + l';
      assert t == [ttl] + t';
      forall j | 0 < j < |l| ensures (l[j] <==> rounds[j].check > t[j]) {
        assert l[j] == l'[j - 1] && t[j] == t'[j - 1] && tail[j - 1] == rounds[j];
      }
    }
  }

  /** Each round after the first runs under the deadline the round before it left. */
  lemma {:induction false} TtlsStep(ttl: real, rounds: seq<Round>)
    ensures forall j :: 0 < j < |Ttls(ttl, rounds)| ==>
              Ttls(ttl, rounds)[j] == NextTtl(Ttls(ttl, rounds)[j - 1], rounds[j - 1])
    decreases |rounds|
  {
    if rounds != [] && !Ends(ttl, rounds[0]) {
      var tail := rounds[1..];
      var ttl' := NextTtl(ttl, rounds[0]);
      TtlsStep(ttl', tail);
      var t, t' := Ttls(ttl, rounds), Ttls(ttl', tail);
      assert t == [ttl] + t';
      forall j | 1 < j < |t| ensures t[j] == NextTtl(t[j - 1], rounds[j - 1]) {
        assert t[j] == t'[j - 1] && t[j - 1] == t'[j - 2] && tail[j - 2] == rounds[j - 1];
      }
      if |t| > 1 {
        assert t[1] == t'[0];
        assert t'[0] == ttl' by { assert tail != []; }
      }
    }
  }

  /** Every round before the last one that runs passes without a failed login. */
  lemma {:induction false} LoginsNoEarlyFailure(ttl: real, rounds: seq<Round>)
    ensures forall j :: 0 <= j < |Ttls(ttl, rounds)| - 1 ==> !Ends(Ttls(ttl, rounds)[j], rounds[j])
    decreases |rounds|
  {
    if rounds != [] && !Ends(ttl, rounds[0]) {
      var tail := rounds[1..];
      var ttl' := NextTtl(ttl, rounds[0]);
      LoginsNoEarlyFailure(ttl', tail);
      var t, t' := Ttls(ttl, rounds), Ttls(ttl', tail);
      assert t == [ttl] + t';
      forall j | 0 < j < |t| - 1 ensures !Ends(t[j], rounds[j]) {
        assert t[j] == t'[j - 1] && tail[j - 1] == rounds[j];
      }
    }
  }

  /** The loop stops short of the rounds given only at a round whose renewal fails. */
  lemma {:induction false} LoginsStopAtFailure(ttl: real, rounds: seq<Round>)
    ensures var n := |Ttls(ttl, rounds)|;
            0 < n < |rounds| ==> Ends(Ttls(ttl, rounds)[n - 1], rounds[n - 1])
    decreases |rounds|
  {
    if rounds != [] && !Ends(ttl, rounds[0]) {
      var tail := rounds[1..];
      var ttl' := NextTtl(ttl, rounds[0]);
      LoginsStopAtFailure(ttl', tail);
      var t, t' := Ttls(ttl, rounds), Ttls(ttl', tail);
      assert t == [ttl] + t';
      if 1 < |t| < |rounds| {
        assert t[|t| - 1] == t'[|t'| - 1] && tail[|t'| - 1] == rounds[|t| - 1];
      }
    }
  }

  /** The clock never runs backwards, within a round or from one round to the next. */
  predicate Monotone(rounds: seq<Round>) {
    (forall i :: 0 <= i < |rounds| ==> rounds[i].check <= rounds[i].afterLogin)
    && forall i, j :: 0 <= i < j < |rounds| ==> rounds[i].afterLogin <= rounds[j].check
  }

  /** Every renewal comes after the deadline the loop started with. */
  lemma {:induction false} LoginsAfterDeadline(ttl: real, rounds: seq<Round>)
    requires Monotone(rounds)
    ensures forall j :: 0 <= j < |Logins(ttl, rounds)| && Logins(ttl, rounds)[j] ==> rounds[j].check > ttl
    decreases |rounds|
  {
    if rounds != [] && !Ends(ttl, rounds[0]) {
      var tail := rounds[1..];
      assert Monotone(tail) by {
        assert forall i :: 0 <= i < |tail| ==> tail[i] == rounds[i + 1];
      }
      LoginsAfterDeadline(NextTtl(ttl, rounds[0]), tail);
      forall j | 0 < j < |Logins(ttl, rounds)| && Logins(ttl, rounds)[j] ensures rounds[j].check > ttl {
        assert Logins(ttl, rounds)[j] == Logins(NextTtl(ttl, rounds[0]), tail)[j - 1];
        assert tail[j - 1] == rounds[j];
      }
    }
  }

  /** Two renewals of the polling loop are more than the session lifetime apart. */
  lemma {:induction false} LoginsSpaced(ttl: real, rounds: seq<Round>)
    requires Monotone(rounds)
    ensures forall i, j :: 0 <= i < j < |Logins(ttl, rounds)| && Logins(ttl, rounds)[i] && Logins(ttl, rounds)[j]
                           ==> rounds[j].check > rounds[i].check + SidLifetime
    decreases |rounds|
  {
    if rounds != [] && !Ends(ttl, rounds[0]) {
      var tail := rounds[1..];
      var ttl' := NextTtl(ttl, rounds[0]);
      assert Monotone(tail) by {
        assert forall i :: 0 <= i < |tail| ==> tail[i] == rounds[i + 1];
      }
      LoginsSpaced(ttl', tail);
      LoginsAfterDeadline(ttl', tail);
      forall i, j | 0 <= i < j < |Logins(ttl, rounds)| && Logins(ttl, rounds)[i] && Logins(ttl, rounds)[j]
        ensures rounds[j].check > rounds[i].check + SidLifetime
      {
        assert Logins(ttl, rounds)[j] == Logins(ttl', tail)[j - 1];
        assert tail[j - 1] == rounds[j];
        if i > 0 {
          assert Logins(ttl, rounds)[i] == Logins(ttl', tail)[i - 1];
          assert tail[i - 1] == rounds[i];
        }
      }
    }
  }

  /**
   * The head of one polling round: when the clock is past the deadline, log
   * in again on the box; a failed login is passed on (it ends the tool) and
   * leaves the deadline alone, a successful one renews the deadline from the
   * reading taken after it. Before the deadline, box and deadline stay as
   * they are.
   */
  method RenewSession(box: FritzHome.FritzBox, ttl: real, round: Round,
                      round1: FritzHome.LoginReply, round2: FritzHome.LoginReply, md5: FritzHome.Md5Utf16le)
    returns (requests: seq<FritzHome.Request>, login: Result<Option<string>>, newTtl: real)
    modifies box
    ensures !Renews(ttl, round) ==>
              requests == [] && login == Success(None) && newTtl == ttl && box.sid == old(box.sid)
    ensures Renews(ttl, round) ==> |requests| == (if round1.sid == FritzHome.ZeroSid then 2 else 1)
    ensures Renews(ttl, round) ==> (login.Failure? <==> FritzHome.LoginFails(round1, round2))
    ensures login.Failure? ==> newTtl == ttl && box.sid == old(box.sid)
    ensures login.Success? ==> newTtl == NextTtl(ttl, round)
  {
    requests := [];
    login := Success(None);
    newTtl := ttl;
    if round.check > ttl {
      requests, login := box.Login(round1, round2, md5);
      if login.Success? {
        newTtl := round.afterLogin + SidLifetime;
      }
    }
  }

  // ---- the payload ----

  /** `int(time.time())`: toward zero. */
  function TruncateToInt(x: real): (n: int)
    ensures x >= 0.0 ==> n as real <= x < n as real + 1.0
    ensures x < 0.0 ==> n as real - 1.0 < x <= n as real
  {
    if x >= 0.0 then x.Floor else -((-x).Floor)
  }

  /** The plaintext carbon line: key, value and whole seconds, blank-separated, ending in a line break. */
  function Payload(key: string, value: int, now: real): (line: string)
    ensures |key| + 1 < |line|
    ensures line[..|key| + 1] == key + " "
    ensures line[|line| - 1] == '\n'
  {
    key + " " + IntString(value) + " " + IntString(TruncateToInt(now)) + "\n"
  }

  /** The part of `s` before the first `c`, and the part after it. */
  function SplitAt(s: string, c: char): Option<(string, string)> {
    if s == [] then None
    else if s[0] == c then Some(([], s[1..]))
    else
      match SplitAt(s[1..], c)
      case None => None
      case Some((a, b)) => Some(([s[0]] + a, b))
  }

  lemma {:induction false} SplitAtFirst(a: string, c: char, b: string)
    requires c !in a
    ensures SplitAt(a + [c] + b, c) == Some((a, b))
  {
    if a != [] {
      assert (a + [c] + b)[1..] == a[1..] + [c] + b;
      SplitAtFirst(a[1..], c, b);
      assert [a[0]] + a[1..] == a;
    }
  }

  /** How carbon reads a line: key, value and timestamp. */
  function ParsePayload(line: string): Option<(string, int, int)> {
    if line == [] || line[|line| - 1] != '\n' then None
    else
      match SplitAt(line[..|line| - 1], ' ')
      case None => None
      case Some((key, rest)) =>
        match SplitAt(rest, ' ')
        case None => None
        case Some((value, stamp)) =>
          match (PyInt(value), PyInt(stamp))
          case (Some(v), Some(t)) => Some((key, v, t))
          case _ => None
  }

  /** A line for a key without blanks or line breaks reads back as the key, the value and the whole seconds. */
  lemma {:induction false} PayloadRoundTrip(key: string, value: int, now: real)
    requires ' ' !in key && '\n' !in key
    ensures ParsePayload(Payload(key, value, now)) == Some((key, value, TruncateToInt(now)))
  {
    var v := IntString(value);
    var t := IntString(TruncateToInt(now));
    IntStringShape(value);
    IntStringShape(TruncateToInt(now));
    var line := Payload(key, value, now);
    var rest := v + [' '] + t;
    assert line == key + [' '] + rest + "\n";
    assert line[..|line| - 1] == key + [' '] + rest;
    SplitAtFirst(key, ' ', rest);
    SplitAtFirst(v, ' ', t);
    PyIntOfIntString(value);
    PyIntOfIntString(TruncateToInt(now));
  }

  /** The two lines of one actor's readings, each stamped with its own clock reading. */
  function ReadingLines(key: string, power: int, total: int, now1: real, now2: real): (lines: seq<string>)
    ensures |lines| == 2
  {
    [Payload(key + ".current", power, now1), Payload(key + ".total", total, now2)]
  }

  /** Both lines of an actor read back under the actor's key with its suffix. */
  lemma {:induction false} ReadingLinesRoundTrip(key: string, power: int, total: int, now1: real, now2: real)
    requires ' ' !in key && '\n' !in key
    ensures ParsePayload(ReadingLines(key, power, total, now1, now2)[0]) == Some((key + ".current", power, TruncateToInt(now1)))
    ensures ParsePayload(ReadingLines(key, power, total, now1, now2)[1]) == Some((key + ".total", total, TruncateToInt(now2)))
  {
    var current, totalKey := key + ".current", key + ".total";
    assert ' ' !in current && '\n' !in current by {
      assert forall i :: 0 <= i < |current| ==> current[i] in key || current[i] in ".current";
    }
    assert ' ' !in totalKey && '\n' !in totalKey by {
      assert forall i :: 0 <= i < |totalKey| ==> totalKey[i] in key || totalKey[i] in ".total";
    }
    PayloadRoundTrip(current, power, now1);
    PayloadRoundTrip(totalKey, total, now2);
  }
}
