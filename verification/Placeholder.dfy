/**
  Environment placeholders in the config text: `%{NAME}` is replaced by the variable and `%%{`
  stands for a literal `%{`. The loader works in three passes over the text; here they are
  compared with one scan from left to right.
 */
module Placeholder {
  import opened Config

  const ESCAPED := "%%{"
  const OPEN := "%{"
  const MARK := "pathosd-escaped-percent-lbrace"
  const SENTINEL := "\0" + MARK + "\0"

  type Env = map<string, string>

  /** `strings.ReplaceAll` for a pattern that is not empty. */
  function ReplaceAll(s: string, pat: string, sub: string): string
    requires pat != ""
    decreases |s|
  {
    if s == "" then ""
    else if pat <= s then sub + ReplaceAll(s[|pat|..], pat, sub)
    else [s[0]] + ReplaceAll(s[1..], pat, sub)
  }

  // ------------------------------------------------------------------
  // Placeholders
  // ------------------------------------------------------------------

  predicate IsStart(c: char) { 'A' <= c <= 'Z' || 'a' <= c <= 'z' || c == '_' }
  predicate IsWord(c: char) { IsStart(c) || '0' <= c <= '9' }

  /** Number of word characters at the beginning. */
  function Run(s: string): (n: nat)
    ensures n <= |s|
  {
    if s == "" || !IsWord(s[0]) then 0 else 1 + Run(s[1..])
  }

  /** The length of the name in a placeholder that begins here: `%{`, a letter or underscore, word characters, `}`. */
  function NameLength(s: string): (n: Option<nat>)
    ensures n.Some? ==> n.value + 3 <= |s|
  {
    if |s| < 2 || s[0] != '%' || s[1] != '{' then None else
    var n := Run(s[2..]);
    if n > 0 && IsStart(s[2]) && n + 2 < |s| && s[n + 2] == '}' then Some(n) else None
  }

  function Replacement(s: string, n: nat, env: Env): string
    requires n + 3 <= |s|
  {
    var name := s[2..n + 2];
    if name in env then env[name] else s[..n + 3]
  }

  /** The regular expression pass. */
  function Substituted(s: string, env: Env): string
    decreases |s|
  {
    if s == "" then "" else
    var n := NameLength(s);
    if n.Some? then Replacement(s, n.value, env) + Substituted(s[n.value + 3..], env)
    else [s[0]] + Substituted(s[1..], env)
  }

  /** The names of the placeholders that have no value. */
  function Missing(s: string, env: Env): set<string>
    decreases |s|
  {
    if s == "" then {} else
    var n := NameLength(s);
    if n.Some? then (if s[2..n.value + 2] in env then {} else {s[2..n.value + 2]}) + Missing(s[n.value + 3..], env)
    else Missing(s[1..], env)
  }

  datatype Outcome = Text(text: string) | MissingVars(names: set<string>)

  /** The second pass, with the set of missing names that its callback fills. */
  method Substitute(input: string, env: Env) returns (output: string, missing: set<string>)
    ensures output == Substituted(input, env) && missing == Missing(input, env)
  {
    hide Substituted, Missing, NameLength;
    output, missing := "", {};
    var rest := input;
    NothingToDo(env);
    while rest != ""
      invariant Substituted(input, env) == output + Substituted(rest, env)
      invariant Missing(input, env) == missing + Missing(rest, env)
      decreases |rest|
    {
      var n := NameLength(rest);
      OnePiece(rest, env);
      var piece := [rest[0]];
      var used := 1;
      if n.Some? {
        used := n.value + 3;
        var name := rest[2..n.value + 2];
        if name in env {
          piece := env[name];
        } else {
          missing := missing + {name};
          piece := rest[..used];
        }
      }
      Associative(output, piece, Substituted(rest[used..], env));
      output := output + piece;
      rest := rest[used..];
    }
  }

  lemma Associative(a: string, b: string, c: string)
    ensures a + (b + c) == (a + b) + c
  {
  }

  lemma NothingToDo(env: Env)
    ensures Substituted("", env) == "" && Missing("", env) == {}
  {
  }

  lemma OnePiece(s: string, env: Env)
    requires s != ""
    ensures var n := NameLength(s);
      n.None? ==> Substituted(s, env) == [s[0]] + Substituted(s[1..], env) && Missing(s, env) == Missing(s[1..], env)
    ensures var n := NameLength(s); n.Some? ==>
      && Substituted(s, env) == Replacement(s, n.value, env) + Substituted(s[n.value + 3..], env)
      && Missing(s, env) ==
         (if s[2..n.value + 2] in env then {} else {s[2..n.value + 2]}) + Missing(s[n.value + 3..], env)
  {
    hide NameLength;
  }

  /** `expandEnvPlaceholders`. */
  method ExpandEnvPlaceholders(data: string, env: Env) returns (r: Outcome)
    ensures r == Pipeline(data, env)
  {
    var input := ReplaceAll(data, ESCAPED, SENTINEL);
    var output, missing := Substitute(input, env);
    if |missing| > 0 {
      return MissingVars(missing);
    }
    output := ReplaceAll(output, SENTINEL, OPEN);
    r := Text(output);
  }

  /** The three passes. */
  function Pipeline(data: string, env: Env): Outcome {
    var input := ReplaceAll(data, ESCAPED, SENTINEL);
    var missing := Missing(input, env);
    if missing != {} then MissingVars(missing) else Text(ReplaceAll(Substituted(input, env), SENTINEL, OPEN))
  }

  // ------------------------------------------------------------------
  // One scan
  // ------------------------------------------------------------------

  /** A character of the result, or an escaped opening. */
  datatype Token = Char(c: char) | Opening

  function Chars(s: string): seq<Token> { seq(|s|, i requires 0 <= i < |s| => Char(s[i])) }

  /** The scan: an escape, a placeholder, or one character. */
  function Scan(s: string, env: Env): seq<Token>
    decreases |s|
  {
    if s == "" then []
    else if ESCAPED <= s then [Opening] + Scan(s[3..], env)
    else
      var n := NameLength(s);
      if n.Some? then Chars(Replacement(s, n.value, env)) + Scan(s[n.value + 3..], env)
      else [Char(s[0])] + Scan(s[1..], env)
  }

  /** The unescaped placeholders that name an unset variable. */
  function Unset(s: string, env: Env): set<string>
    decreases |s|
  {
    if s == "" then {}
    else if ESCAPED <= s then Unset(s[3..], env)
    else
      var n := NameLength(s);
      if n.Some? then (if s[2..n.value + 2] in env then {} else {s[2..n.value + 2]}) + Unset(s[n.value + 3..], env)
      else Unset(s[1..], env)
  }

  /** The text of a token stream, with `opening` for every escape. */
  function Spell(ts: seq<Token>, opening: string): string {
    if ts == [] then ""
    else (match ts[0] case Char(c) => [c] case Opening => opening) + Spell(ts[1..], opening)
  }

  /** What the loader is meant to compute. */
  function Expansion(s: string, env: Env): Outcome {
    if Unset(s, env) != {} then MissingVars(Unset(s, env)) else Text(Spell(Scan(s, env), OPEN))
  }

  // ------------------------------------------------------------------
  // The first two passes
  // ------------------------------------------------------------------

  function Marked(s: string): string { ReplaceAll(s, ESCAPED, SENTINEL) }

  lemma MarkedHead(s: string)
    requires s != ""
    ensures ESCAPED <= s ==> Marked(s) == SENTINEL + Marked(s[3..])
    ensures !(ESCAPED <= s) ==> Marked(s) == [s[0]] + Marked(s[1..])
    ensures Marked(s)[0] == if ESCAPED <= s then '\0' else s[0]
  {
    assert SENTINEL[0] == '\0';
  }

  /** Marking the escapes leaves a run of word characters alone. */
  lemma {:induction false} MarkedRun(s: string)
    ensures Run(Marked(s)) == Run(s)
    ensures Marked(s) == s[..Run(s)] + Marked(s[Run(s)..])
  {
    hide Marked;
    MarkedNothing();
    if s == "" {
      assert s[Run(s)..] == "" && s[..Run(s)] == "";
    } else {
      MarkedHead(s);
      if IsWord(s[0]) {
        var rest, n := s[1..], Run(s[1..]);
        assert Marked(s) == [s[0]] + Marked(rest) && Marked(s)[1..] == Marked(rest);
        MarkedRun(rest);
        assert rest[n..] == s[n + 1..];
        Associative([s[0]], rest[..n], Marked(rest[n..]));
        assert s[..n + 1] == [s[0]] + rest[..n];
      } else {
        assert s[0..] == s && s[..0] == "" && "" + Marked(s) == Marked(s);
      }
    }
  }

  /** A placeholder that is not escaped is one after marking, with the same name and the marked rest. */
  lemma {:induction false} MarkedName(s: string)
    requires s != "" && !(ESCAPED <= s)
    ensures NameLength(Marked(s)) == NameLength(s)
    ensures NameLength(s).Some? ==> var n := NameLength(s).value; Marked(s) == s[..n + 3] + Marked(s[n + 3..])
  {
    hide Marked, Run;
    MarkedHead(s);
    MarkedNothing();
    if |s| > 1 { MarkedHead(s[1..]); }
    if |s| > 1 && s[0] == '%' && s[1] == '{' {
      var m, rest := Marked(s), s[2..];
      assert s[1..][1..] == rest;
      assert Marked(s[1..]) == ['{'] + Marked(rest);
      assert m == "%{" + Marked(rest) && m[2..] == Marked(rest);
      MarkedRun(rest);
      MarkedClose(s, m, Run(rest));
    } else if |s| == 1 {
      assert s[1..] == "";
    }
  }

  lemma {:induction false} MarkedClose(s: string, m: string, n: nat)
    requires |s| >= 2 && n <= |s[2..]| && m == "%{" + (s[2..][..n] + Marked(s[2..][n..])) && s[..2] == "%{"
    ensures |m| >= n + 2 && m[..n + 2] == s[..n + 2]
    ensures n + 2 < |s| ==> n + 2 < |m| && (s[n + 2] == '}' <==> m[n + 2] == '}')
    ensures n + 2 == |s| ==> n + 2 == |m|
    ensures n + 2 < |s| && s[n + 2] == '}' ==> m == s[..n + 3] + Marked(s[n + 3..])
  {
    hide Marked;
    var tail := s[2..][n..];
    assert s == s[..n + 2] + tail;
    assert m == s[..n + 2] + Marked(tail);
    if tail == "" {
      MarkedNothing();
    } else {
      MarkedHead(tail);
      assert m[n + 2] == Marked(tail)[0];
      assert tail[1..] == s[n + 3..];
    }
  }

  /** Text without a percent sign passes the substitution unchanged. */
  lemma {:induction false} NoPercent(a: string, b: string, env: Env)
    requires '%' !in a
    ensures Substituted(a + b, env) == a + Substituted(b, env) && Missing(a + b, env) == Missing(b, env)
  {
    if a == "" {
      assert a + b == b;
    } else {
      assert (a + b)[1..] == a[1..] + b && a == [a[0]] + a[1..];
      NoPercent(a[1..], b, env);
    }
  }

  lemma SpellConcat(a: string, ts: seq<Token>, opening: string)
    ensures Spell(Chars(a) + ts, opening) == a + Spell(ts, opening)
  {
    if a == "" {
      assert Chars(a) + ts == ts;
    } else {
      assert (Chars(a) + ts)[1..] == Chars(a[1..]) + ts && a == [a[0]] + a[1..];
      SpellConcat(a[1..], ts, opening);
    }
  }

  /**
    The first two passes spell the scan with the sentinel in place of every escape, and miss exactly
    the unset names.
   */
  lemma {:induction false} TwoPasses(s: string, env: Env)
    ensures Substituted(Marked(s), env) == Spell(Scan(s, env), SENTINEL)
    ensures Missing(Marked(s), env) == Unset(s, env)
    decreases |s|
  {
    hide ReplaceAll, NameLength, Replacement, Chars;
    if s == "" {
      assert Marked(s) == "" by { MarkedNothing(); }
    } else if ESCAPED <= s {
      MarkedHead(s);
      TwoPasses(s[3..], env);
      NoPercent(SENTINEL, Marked(s[3..]), env);
      assert ([Opening] + Scan(s[3..], env))[1..] == Scan(s[3..], env);
    } else {
      MarkedHead(s);
      MarkedName(s);
      var n := NameLength(s);
      if n.Some? {
        PassName(s, n.value, env);
      } else {
        assert Marked(s)[1..] == Marked(s[1..]);
        TwoPasses(s[1..], env);
        assert ([Char(s[0])] + Scan(s[1..], env))[1..] == Scan(s[1..], env);
      }
    }
  }

  lemma MarkedNothing()
    ensures Marked("") == ""
  {
  }

  lemma {:induction false} PassName(s: string, n: nat, env: Env)
    requires s != "" && !(ESCAPED <= s) && NameLength(s) == Some(n) && NameLength(Marked(s)) == Some(n)
    requires Marked(s) == s[..n + 3] + Marked(s[n + 3..])
    ensures Substituted(Marked(s), env) == Spell(Scan(s, env), SENTINEL)
    ensures Missing(Marked(s), env) == Unset(s, env)
    decreases |s|, 0
  {
    hide ReplaceAll, NameLength, Chars;
    var m := Marked(s);
    assert m[n + 3..] == Marked(s[n + 3..]) && m[..n + 3] == s[..n + 3] && m[2..n + 2] == s[2..n + 2];
    TwoPasses(s[n + 3..], env);
    SpellConcat(Replacement(s, n, env), Scan(s[n + 3..], env), SENTINEL);
  }

  // ------------------------------------------------------------------
  // The third pass
  // ------------------------------------------------------------------

  /** Nowhere does a plain character begin something that reads like the sentinel. */
  predicate Clean(ts: seq<Token>) {
    forall i :: 0 <= i < |ts| && ts[i].Char? ==> !(SENTINEL <= Spell(ts[i..], SENTINEL))
  }

  lemma SpellHead(ts: seq<Token>, opening: string)
    requires ts != []
    ensures ts[0].Char? ==> Spell(ts, opening) == [ts[0].c] + Spell(ts[1..], opening)
    ensures ts[0].Opening? ==> Spell(ts, opening) == opening + Spell(ts[1..], opening)
  {
  }

  lemma {:induction false} ReplaceHead(a: string, b: string)
    requires a + b != ""
    ensures a == SENTINEL ==> ReplaceAll(a + b, SENTINEL, OPEN) == OPEN + ReplaceAll(b, SENTINEL, OPEN)
    ensures |a| == 1 && !(SENTINEL <= a + b) ==> ReplaceAll(a + b, SENTINEL, OPEN) == a + ReplaceAll(b, SENTINEL, OPEN)
    ensures |a| == 1 && SENTINEL <= a + b ==> ReplaceAll(a + b, SENTINEL, OPEN)[0] == '%' && a == "\0"
  {
    if a == SENTINEL { assert (a + b)[|SENTINEL|..] == b; }
    if |a| == 1 { assert (a + b)[1..] == b && (a + b)[0] == a[0]; }
    if SENTINEL <= a + b { assert (a + b)[0] == SENTINEL[0] == '\0'; }
  }

  /** The third pass restores exactly the escapes if and only if the stream is clean. */
  lemma {:induction false} ThirdPassIff(ts: seq<Token>)
    ensures ReplaceAll(Spell(ts, SENTINEL), SENTINEL, OPEN) == Spell(ts, OPEN) <==> Clean(ts)
  {
    hide ReplaceAll, Spell;
    if ts == [] {
      NothingSpelled();
    } else {
      SpellHead(ts, SENTINEL);
      SpellHead(ts, OPEN);
      ThirdPassIff(ts[1..]);
      CleanHead(ts);
      var rest := Spell(ts[1..], SENTINEL);
      if ts[0].Opening? {
        ReplaceHead(SENTINEL, rest);
        Cancel(OPEN, ReplaceAll(rest, SENTINEL, OPEN), Spell(ts[1..], OPEN));
      } else {
        ReplaceHead([ts[0].c], rest);
        Cancel([ts[0].c], ReplaceAll(rest, SENTINEL, OPEN), Spell(ts[1..], OPEN));
        assert Spell(ts, OPEN)[0] == ts[0].c;
      }
    }
  }

  lemma NothingSpelled()
    ensures ReplaceAll(Spell([], SENTINEL), SENTINEL, OPEN) == Spell([], OPEN)
  {
  }

  lemma Cancel(a: string, b: string, c: string)
    ensures a + b == a + c <==> b == c
  {
    if a + b == a + c {
      assert b == (a + b)[|a|..] == (a + c)[|a|..] == c;
    }
  }

  lemma {:induction false} CleanHead(ts: seq<Token>)
    requires ts != []
    ensures Clean(ts) <==> (ts[0].Char? ==> !(SENTINEL <= Spell(ts, SENTINEL))) && Clean(ts[1..])
  {
    hide Spell;
    var rest := ts[1..];
    assert ts[0..] == ts;
    assert forall i :: 0 <= i < |rest| ==> rest[i..] == ts[i + 1..] && rest[i] == ts[i + 1];
    if Clean(rest) && (ts[0].Char? ==> !(SENTINEL <= Spell(ts, SENTINEL))) {
      forall i | 0 <= i < |ts| && ts[i].Char?
        ensures !(SENTINEL <= Spell(ts[i..], SENTINEL))
      {
        if i > 0 { assert rest[i - 1..] == ts[i..] && rest[i - 1].Char?; }
      }
    }
  }

  // ------------------------------------------------------------------
  // The theorem
  // ------------------------------------------------------------------

  /**
    For every text and environment: the three passes fail exactly when an unescaped placeholder
    names an unset variable, with exactly those names; and otherwise they compute the
    single-scan expansion if and only if no plain character begins the sentinel.
   */
  lemma {:induction false} PipelineIff(s: string, env: Env)
    ensures Pipeline(s, env).MissingVars? <==> Unset(s, env) != {}
    ensures Unset(s, env) != {} ==> Pipeline(s, env) == Expansion(s, env)
    ensures Unset(s, env) == {} ==> (Pipeline(s, env) == Expansion(s, env) <==> Clean(Scan(s, env)))
  {
    hide ReplaceAll, Spell, Clean, Scan, Substituted, Missing, Unset;
    TwoPasses(s, env);
    ThirdPassIff(Scan(s, env));
  }

  /** Texts and values without a NUL character are always expanded as meant. */
  lemma {:induction false} NulFreeExpands(s: string, env: Env)
    requires '\0' !in s && forall n :: n in env ==> '\0' !in env[n]
    ensures Pipeline(s, env) == Expansion(s, env)
  {
    hide Pipeline, Expansion, Scan, Clean;
    PipelineIff(s, env);
    NulFreeScan(s, env);
    NulFreeClean(Scan(s, env));
  }

  lemma {:induction false} NulFreeScan(s: string, env: Env)
    requires '\0' !in s && forall n :: n in env ==> '\0' !in env[n]
    ensures Char('\0') !in Scan(s, env)
    decreases |s|
  {
    hide NameLength;
    if s != "" {
      if ESCAPED <= s {
        NulFreeScan(s[3..], env);
      } else if NameLength(s).Some? {
        NulFreeScan(s[NameLength(s).value + 3..], env);
      } else {
        NulFreeScan(s[1..], env);
      }
    }
  }

  lemma {:induction false} NulFreeClean(ts: seq<Token>)
    requires Char('\0') !in ts
    ensures Clean(ts)
  {
    forall i | 0 <= i < |ts| && ts[i].Char?
      ensures !(SENTINEL <= Spell(ts[i..], SENTINEL))
    {
      hide Spell;
      SpellHead(ts[i..], SENTINEL);
      assert Spell(ts[i..], SENTINEL)[0] == ts[i].c != '\0' == SENTINEL[0];
    }
  }

  /** Freedom from the sentinel itself is not enough: half a sentinel before an escape is completed by it. */
  lemma {:induction false} SentinelFreeIsNotEnough() returns (s: string)
    ensures forall i :: 0 <= i <= |s| ==> !(SENTINEL <= s[i..])
    ensures Unset(s, map[]) == {} && Pipeline(s, map[]) != Expansion(s, map[])
  {
    var half := "\0" + MARK;
    s := half + ESCAPED;
    MarkIsPlain();
    forall i | 0 <= i <= |s|
      ensures !(SENTINEL <= s[i..])
    {
      assert 0 < i < |s| ==> s[i] != '\0';
      assert s[0..][|MARK| + 1] == '%' && SENTINEL[|MARK| + 1] == '\0' && SENTINEL[0] == '\0';
      assert i < |s| ==> s[i..][0] == s[i];
    }
    HalfScan(half, ESCAPED, map[]);
    NoEscape();
    var ts := Scan(s, map[]);
    assert ts == Chars(half) + [Opening];
    SpellConcat(half, [Opening], SENTINEL);
    assert Spell([Opening], SENTINEL) == SENTINEL;
    assert SENTINEL <= Spell(ts, SENTINEL) && ts[0..] == ts && ts[0].Char?;
    PipelineIff(s, map[]);
  }

  lemma MarkIsPlain()
    ensures forall i :: 0 <= i < |MARK| ==> MARK[i] != '\0' && MARK[i] != '%'
  {
  }

  /** Text without a percent sign is scanned character by character. */
  lemma {:induction false} HalfScan(a: string, b: string, env: Env)
    requires '%' !in a
    ensures Scan(a + b, env) == Chars(a) + Scan(b, env) && Unset(a + b, env) == Unset(b, env)
  {
    hide Scan, Unset;
    if a == "" {
      assert a + b == b && Chars(a) + Scan(b, env) == Scan(b, env);
    } else {
      var s := a + b;
      assert s[1..] == a[1..] + b && s[0] == a[0] && a[0] in a;
      PlainScan(s, env);
      HalfScan(a[1..], b, env);
      assert Chars(a) == [Char(a[0])] + Chars(a[1..]);
    }
  }

  lemma PlainScan(s: string, env: Env)
    requires s != "" && s[0] != '%'
    ensures Scan(s, env) == [Char(s[0])] + Scan(s[1..], env) && Unset(s, env) == Unset(s[1..], env)
  {
    hide Replacement, Run;
    assert ESCAPED[0] == '%';
  }

  lemma NoEscape()
    ensures Scan(ESCAPED, map[]) == [Opening] && Unset(ESCAPED, map[]) == {}
  {
    assert ESCAPED[3..] == "";
  }

  // ------------------------------------------------------------------
  // What the loader makes of a text, piece by piece
  // ------------------------------------------------------------------

  /** The names that can stand in a placeholder: a letter or underscore, then letters, digits and underscores. */
  predicate EnvName(name: string) {
    && name != "" && !('0' <= name[0] <= '9')
    && AllWord(name)
  }

  predicate AllWord(w: string) {
    forall i :: 0 <= i < |w| ==>
      'A' <= w[i] <= 'Z' || 'a' <= w[i] <= 'z' || '0' <= w[i] <= '9' || w[i] == '_'
  }

  predicate NulFree(s: string, env: Env) { '\0' !in s && forall n :: n in env ==> '\0' !in env[n] }

  /** An outcome behind a piece of text, with the names that are missing in that piece. */
  function Joined(front: string, missing: set<string>, rest: Outcome): Outcome {
    match rest
    case Text(x) => if missing == {} then Text(front + x) else MissingVars(missing)
    case MissingVars(names) => MissingVars(missing + names)
  }

  lemma {:induction false} Joins(s: string, front: string, missing: set<string>, b: string, env: Env)
    requires NulFree(s, env) && NulFree(b, env)
    requires Unset(s, env) == missing + Unset(b, env)
    requires missing == {} ==> Spell(Scan(s, env), OPEN) == front + Spell(Scan(b, env), OPEN)
    ensures Pipeline(s, env) == Joined(front, missing, Pipeline(b, env))
  {
    hide Pipeline, Scan, Unset, Spell;
    NulFreeExpands(s, env);
    NulFreeExpands(b, env);
  }

  lemma {:induction false} RunOf(w: string, b: string)
    requires AllWord(w) && (b == "" || !AllWord(b[..1]))
    ensures Run(w + b) == |w|
  {
    if w == "" {
      assert w + b == b && (b != "" ==> b[..1][0] == b[0]);
      if b != "" { assert !IsWord(b[0]); }
    } else {
      assert (w + b)[1..] == w[1..] + b && (w + b)[0] == w[0];
      RunOf(w[1..], b);
    }
  }

  /** `%{`, word characters and what follows: how it is read. */
  lemma {:induction false} OpenedName(w: string, b: string)
    requires AllWord(w) && (b == "" || !AllWord(b[..1]))
    ensures var s := "%{" + w + b;
      && !(ESCAPED <= s) && s[1..] == "{" + w + b && s[2..] == w + b
      && (NameLength(s) == if EnvName(w) && b != "" && b[0] == '}' then Some(|w|) else None)
  {
    var s := "%{" + w + b;
    assert s[2..] == w + b && s[0] == '%' && s[1] == '{' && ESCAPED[1] == '%';
    RunOf(w, b);
    if w != "" { assert s[2] == w[0]; }
    if b != "" { assert s[|w| + 2] == b[0]; }
  }

  /** A variable that is set is replaced by its value; one that is not is reported. */
  lemma {:induction false} VariableExpands(a: string, name: string, b: string, env: Env)
    requires '%' !in a && EnvName(name) && NulFree(a, env) && NulFree(b, env)
    ensures var s := a + "%{" + name + "}" + b;
      Pipeline(s, env) ==
      if name in env then Joined(a + env[name], {}, Pipeline(b, env)) else Joined("", {name}, Pipeline(b, env))
  {
    hide Pipeline, Scan, Unset, Spell, NameLength, Run, Chars;
    var tail, s := "%{" + name + "}" + b, a + "%{" + name + "}" + b;
    assert s == a + tail;
    HalfScan(a, tail, env);
    NamedScan(name, b, env);
    NulFreePieces(a, name, b, env);
    if name in env {
      SpellConcat(a, Scan(tail, env), OPEN);
      SpellConcat(env[name], Scan(b, env), OPEN);
      Associative(a, env[name], Spell(Scan(b, env), OPEN));
      Joins(s, a + env[name], {}, b, env);
    } else {
      Joins(s, "", {name}, b, env);
    }
  }

  lemma NulFreePieces(a: string, name: string, b: string, env: Env)
    requires AllWord(name) && NulFree(a, env) && NulFree(b, env)
    ensures NulFree(a + "%{" + name + "}" + b, env) && NulFree(a + "%{" + name + b, env)
    ensures NulFree(a + "%%{" + b, env) && NulFree(a + "%" + b, env)
  {
  }

  lemma {:induction false} NamedScan(name: string, b: string, env: Env)
    requires EnvName(name)
    ensures var s := "%{" + name + "}" + b;
      && (name in env ==> Scan(s, env) == Chars(env[name]) + Scan(b, env))
      && Unset(s, env) == (if name in env then {} else {name}) + Unset(b, env)
  {
    hide NameLength, Run, Chars;
    var s, rest := "%{" + name + "}" + b, "}" + b;
    assert s == "%{" + name + rest && rest[..1] == "}" && rest[0] == '}';
    OpenedName(name, rest);
    assert s[2..|name| + 2] == name && s[|name| + 3..] == b;
  }

  /** An escaped opening stands for the opening. */
  lemma {:induction false} EscapeExpands(a: string, b: string, env: Env)
    requires '%' !in a && NulFree(a, env) && NulFree(b, env)
    ensures Pipeline(a + "%%{" + b, env) == Joined(a + "%{", {}, Pipeline(b, env))
  {
    hide Pipeline, Spell, NameLength, Chars;
    var tail, s := "%%{" + b, a + "%%{" + b;
    assert s == a + tail && ESCAPED <= tail && tail[3..] == b;
    HalfScan(a, tail, env);
    NulFreePieces(a, "", b, env);
    SpellConcat(a, Scan(tail, env), OPEN);
    SpellHead(Scan(tail, env), OPEN);
    assert Scan(tail, env)[1..] == Scan(b, env);
    Associative(a, OPEN, Spell(Scan(b, env), OPEN));
    Joins(s, a + "%{", {}, b, env);
  }

  /** An opening without a name that is closed is plain text, and so are the word characters behind it. */
  lemma {:induction false} NoNameStays(a: string, w: string, b: string, env: Env)
    requires '%' !in a && AllWord(w) && NulFree(a, env) && NulFree(b, env)
    requires b == "" || (!AllWord(b[..1]) && !(EnvName(w) && b[0] == '}'))
    ensures Pipeline(a + "%{" + w + b, env) == Joined(a + "%{" + w, {}, Pipeline(b, env))
  {
    hide Pipeline, Scan, Unset, Spell, NameLength, Run, Chars;
    var tail, s, front := "%{" + w + b, a + "%{" + w + b, "{" + w;
    assert s == a + tail && front + b == "{" + w + b;
    HalfScan(a, tail, env);
    OpenedName(w, b);
    PercentScan(tail, env);
    assert '%' !in front;
    HalfScan(front, b, env);
    NulFreePieces(a, w, b, env);
    SpellConcat(a, Scan(tail, env), OPEN);
    SpellConcat("%", Scan(front + b, env), OPEN);
    SpellConcat(front, Scan(b, env), OPEN);
    assert a + ("%" + (front + Spell(Scan(b, env), OPEN))) == a + "%{" + w + Spell(Scan(b, env), OPEN);
    Joins(s, a + "%{" + w, {}, b, env);
  }

  lemma PercentScan(s: string, env: Env)
    requires s != "" && s[0] == '%' && !(ESCAPED <= s) && NameLength(s).None?
    ensures Scan(s, env) == Chars("%") + Scan(s[1..], env) && Unset(s, env) == Unset(s[1..], env)
  {
    hide NameLength;
    assert Chars("%") == [Char('%')];
  }

  lemma OpensNothing(b: string)
    requires !("{" <= b) && !("%{" <= b)
    ensures !(ESCAPED <= "%" + b) && NameLength("%" + b).None?
  {
    hide Run;
    var s := "%" + b;
    assert |b| >= 1 ==> s[1] == b[0] && (b[0] == '{' <==> "{" <= b);
    assert |b| >= 2 ==> s[2] == b[1] && (b[0] == '%' && b[1] == '{' <==> "%{" <= b);
    assert ESCAPED == ['%', '%', '{'];
  }

  /** A percent sign that opens nothing and escapes nothing is plain text. */
  lemma {:induction false} PercentStays(a: string, b: string, env: Env)
    requires '%' !in a && NulFree(a, env) && NulFree(b, env) && !("{" <= b) && !("%{" <= b)
    ensures Pipeline(a + "%" + b, env) == Joined(a + "%", {}, Pipeline(b, env))
  {
    hide Pipeline, Scan, Unset, Spell, Run, Chars;
    var tail, s := "%" + b, a + "%" + b;
    assert s == a + tail && tail[1..] == b && tail[0] == '%';
    HalfScan(a, tail, env);
    OpensNothing(b);
    PercentScan(tail, env);
    NulFreePieces(a, "", b, env);
    SpellConcat(a, Scan(tail, env), OPEN);
    SpellConcat("%", Scan(b, env), OPEN);
    Associative(a, "%", Spell(Scan(b, env), OPEN));
    Joins(s, a + "%", {}, b, env);
  }

  lemma NoText(env: Env)
    ensures Spell(Scan("", env), OPEN) == "" && Unset("", env) == {}
  {
  }

  /** Text without a percent sign stays as it is. */
  lemma {:induction false} PlainStays(a: string, env: Env)
    requires '%' !in a && NulFree(a, env)
    ensures Pipeline(a, env) == Text(a)
  {
    hide Pipeline, Spell, NameLength, Chars;
    assert a + "" == a;
    HalfScan(a, "", env);
    SpellConcat(a, Scan("", env), OPEN);
    NulFreeExpands(a, env);
    NoText(env);
  }

  // ------------------------------------------------------------------
  // Escaping
  // ------------------------------------------------------------------

  /** Every `%{` doubled to `%%{`. */
  function Escape(s: string): string { ReplaceAll(s, OPEN, ESCAPED) }

  lemma {:induction false} EscapeHead(s: string)
    ensures !(OPEN <= Escape(s))
    ensures Escape(s) != "" && Escape(s)[0] == '{' ==> s != "" && s[0] == '{'
  {
    if s == "" {
    } else if OPEN <= s {
      assert Escape(s)[1] == ESCAPED[1] == '%';
    } else {
      EscapeHead(s[1..]);
      assert Escape(s)[0] == s[0] && Escape(s)[1..] == Escape(s[1..]);
    }
  }

  lemma NotEscaped(e: string)
    requires e != "" && !(OPEN <= e[1..])
    ensures !(ESCAPED <= e)
  {
    assert |e| >= 3 ==> e[1..][0] == e[1] && e[1..][1] == e[2];
  }

  lemma {:induction false} EscapeScans(s: string, env: Env)
    ensures Spell(Scan(Escape(s), env), OPEN) == s && Unset(Escape(s), env) == {}
    ensures forall i :: 0 <= i < |Scan(Escape(s), env)| && Scan(Escape(s), env)[i].Char? ==>
      Scan(Escape(s), env)[i].c in s
    decreases |s|
  {
    if s != "" {
      var e := Escape(s);
      if OPEN <= s {
        assert e == ESCAPED + Escape(s[2..]) && e[3..] == Escape(s[2..]);
        EscapeScans(s[2..], env);
        assert Scan(e, env)[1..] == Scan(e[3..], env);
      } else {
        assert e == [s[0]] + Escape(s[1..]) && e[1..] == Escape(s[1..]);
        EscapeScans(s[1..], env);
        EscapeHead(s);
        EscapeHead(s[1..]);
        assert !(ESCAPED <= e) by { NotEscaped(e); }
        assert Scan(e, env)[1..] == Scan(e[1..], env);
      }
    }
  }

  /**
    Nowhere in the text does a character that opens nothing begin something that reads like the
    sentinel once every `%{` is marked.
   */
  predicate EscapesSafely(s: string) {
    forall i :: 0 <= i < |s| ==> !Slips(s[i..])
  }

  predicate Slips(s: string) { !(OPEN <= s) && SENTINEL <= ReplaceAll(s, OPEN, SENTINEL) }

  /** The tokens of an escaped text, spelled with the sentinel, are the text with every opening marked. */
  lemma {:induction false} EscapeSpells(s: string, env: Env)
    ensures Spell(Scan(Escape(s), env), SENTINEL) == ReplaceAll(s, OPEN, SENTINEL)
    ensures s != "" && OPEN <= s ==> Scan(Escape(s), env) == [Opening] + Scan(Escape(s[2..]), env)
    ensures s != "" && !(OPEN <= s) ==> Scan(Escape(s), env) == [Char(s[0])] + Scan(Escape(s[1..]), env)
    decreases |s|
  {
    hide Replacement, Run;
    if s != "" {
      var e := Escape(s);
      if OPEN <= s {
        assert e == ESCAPED + Escape(s[2..]) && e[3..] == Escape(s[2..]);
        EscapeSpells(s[2..], env);
        assert Scan(e, env)[1..] == Scan(e[3..], env);
      } else {
        assert e == [s[0]] + Escape(s[1..]) && e[1..] == Escape(s[1..]);
        EscapeSpells(s[1..], env);
        EscapeHead(s);
        EscapeHead(s[1..]);
        assert !(ESCAPED <= e) by { NotEscaped(e); }
        assert Scan(e, env)[1..] == Scan(e[1..], env);
      }
    }
  }

  lemma {:induction false} SafelyTail(s: string)
    requires s != ""
    ensures EscapesSafely(s) <==> !Slips(s) && EscapesSafely(s[1..])
  {
    hide Slips;
    var rest := s[1..];
    assert s[0..] == s;
    if EscapesSafely(s) {
      forall i | 0 <= i < |rest|
        ensures !Slips(rest[i..])
      {
        assert rest[i..] == s[i + 1..];
      }
    }
    if !Slips(s) && EscapesSafely(rest) {
      forall i | 0 <= i < |s|
        ensures !Slips(s[i..])
      {
        if i > 0 { assert rest[i - 1..] == s[i..]; }
      }
    }
  }

  lemma {:induction false} SafelyHead(s: string)
    requires s != ""
    ensures EscapesSafely(s) <==> !Slips(s) && EscapesSafely(if OPEN <= s then s[2..] else s[1..])
  {
    hide EscapesSafely, Slips;
    SafelyTail(s);
    if OPEN <= s {
      assert s[1..] != "" && s[1..][1..] == s[2..];
      SafelyTail(s[1..]);
      SecondIsPlain(s);
    }
  }

  /** The brace of an opening begins nothing. */
  lemma SecondIsPlain(s: string)
    requires OPEN <= s
    ensures !Slips(s[1..])
  {
    assert s[1] == OPEN[1] == '{' && s[1..][0] == '{' && OPEN[0] == '%';
    assert ReplaceAll(s[1..], OPEN, SENTINEL)[0] == '{' && SENTINEL[0] == '\0';
  }

  /** Slipping is what cleanness forbids. */
  lemma SlipsIs(s: string, env: Env)
    requires s != ""
    ensures var ts := Scan(Escape(s), env);
      ts != [] && (ts[0].Char? <==> !(OPEN <= s)) && (Slips(s) <==> ts[0].Char? && SENTINEL <= Spell(ts, SENTINEL))
  {
    hide Scan, Spell, ReplaceAll;
    EscapeSpells(s, env);
  }

  lemma {:induction false} SafelyIsClean(s: string, env: Env)
    ensures Clean(Scan(Escape(s), env)) <==> EscapesSafely(s)
    decreases |s|
  {
    hide ReplaceAll, Scan, Spell, Clean, EscapesSafely, Slips;
    EscapeSpells(s, env);
    if s == "" {
      NothingToEscape(env);
    } else {
      SlipsIs(s, env);
      var ts, rest := Scan(Escape(s), env), if OPEN <= s then s[2..] else s[1..];
      SafelyHead(s);
      CleanHead(ts);
      assert ts[1..] == Scan(Escape(rest), env);
      SafelyIsClean(rest, env);
    }
  }

  lemma NothingToEscape(env: Env)
    ensures Clean(Scan(Escape(""), env)) && EscapesSafely("")
  {
  }

  /** Expanding a fully escaped text, in any environment, gives the text back if and only if it escapes safely. */
  lemma {:induction false} EscapeRoundTripIff(s: string, env: Env)
    ensures Pipeline(Escape(s), env) == Text(s) <==> EscapesSafely(s)
  {
    hide ReplaceAll, Spell, Scan, Substituted, Missing, Unset, Clean, EscapesSafely, Pipeline;
    EscapeScans(s, env);
    PipelineIff(Escape(s), env);
    SafelyIsClean(s, env);
  }

  /** In particular a text without a NUL character comes back. */
  lemma {:induction false} EscapeRoundTrip(s: string, env: Env)
    requires '\0' !in s
    ensures Pipeline(Escape(s), env) == Text(s)
  {
    hide Pipeline, ReplaceAll;
    EscapeRoundTripIff(s, env);
    forall i | 0 <= i < |s|
      ensures !Slips(s[i..])
    {
      assert s[i] in s && s[i..][0] == s[i];
      if !(OPEN <= s[i..]) { PlainHead(s[i..]); }
    }
  }

  lemma PlainHead(s: string)
    requires s != "" && s[0] != '\0' && !(OPEN <= s)
    ensures !(SENTINEL <= ReplaceAll(s, OPEN, SENTINEL))
  {
    assert ReplaceAll(s, OPEN, SENTINEL)[0] == s[0] && SENTINEL[0] == '\0';
  }

  /** A text free of the sentinel that does not come back: half a sentinel before an opening. */
  lemma {:induction false} EscapeLosesText(env: Env) returns (s: string)
    ensures forall i :: 0 <= i <= |s| ==> !(SENTINEL <= s[i..])
    ensures Pipeline(Escape(s), env) != Text(s)
  {
    hide Pipeline;
    var half := "\0" + MARK;
    s := half + OPEN;
    MarkIsPlain();
    forall i | 0 <= i <= |s|
      ensures !(SENTINEL <= s[i..])
    {
      assert 0 < i < |s| ==> s[i] != '\0';
      assert s[0..][|MARK| + 1] == '%' && SENTINEL[|MARK| + 1] == '\0' && SENTINEL[0] == '\0';
      assert i < |s| ==> s[i..][0] == s[i];
    }
    HalfMarked(half);
    assert s[0..] == s && Slips(s);
    EscapeRoundTripIff(s, env);
  }

  lemma {:induction false} HalfMarked(a: string)
    requires '%' !in a
    ensures ReplaceAll(a + OPEN, OPEN, SENTINEL) == a + SENTINEL
  {
    hide ReplaceAll;
    if a == "" {
      assert a + OPEN == OPEN && a + SENTINEL == SENTINEL;
      OpeningMarked();
    } else {
      var s := a + OPEN;
      assert s[1..] == a[1..] + OPEN && s[0] == a[0] && a[0] in a;
      PlainMarked(s);
      HalfMarked(a[1..]);
      Associative([a[0]], a[1..], SENTINEL);
      assert a == [a[0]] + a[1..];
    }
  }

  lemma OpeningMarked()
    ensures ReplaceAll(OPEN, OPEN, SENTINEL) == SENTINEL
  {
    assert OPEN[2..] == "" && ReplaceAll("", OPEN, SENTINEL) == "";
  }

  lemma PlainMarked(s: string)
    requires s != "" && s[0] != '%'
    ensures ReplaceAll(s, OPEN, SENTINEL) == [s[0]] + ReplaceAll(s[1..], OPEN, SENTINEL)
  {
    assert OPEN[0] == '%';
  }
}
