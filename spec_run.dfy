/**
 * The specrun.sh parsing of scripts/util/spec.py: the lines of the script,
 * Python's `strip()` and `split()`, the first command line
 * (`get_specrun_command`) and the construction of a SpecCommand with its
 * token rewrite. Reading the file, listing the SPEC directory and the
 * file-system test behind `(specrun_cwd / token).exists()` are inputs.
 */
module SpecRun {
  import opened Results

  /** Python's `str.isspace` on one character: what `strip()` and `split()` with no argument treat as whitespace. */
  predicate IsSpace(c: char) {
    || c == ' '
    || ('\t' <= c <= '\r')
    || ('\U{1c}' <= c <= '\U{1f}')
    || c == '\U{85}' || c == '\U{a0}' || c == '\U{1680}'
    || ('\U{2000}' <= c <= '\U{200a}')
    || c == '\U{2028}' || c == '\U{2029}' || c == '\U{202f}' || c == '\U{205f}' || c == '\U{3000}'
  }

  predicate AllSpace(s: string) {
    forall i :: 0 <= i < |s| ==> IsSpace(s[i])
  }

  /** A word of `split()`: non-empty, without whitespace. */
  predicate IsToken(t: string) {
    |t| > 0 && forall i :: 0 <= i < |t| ==> !IsSpace(t[i])
  }

  // ----- The lines of a file -----

  /** The length of the first line: up to and including the first newline, or all of `text`. */
  function LineLength(text: string): (n: nat)
    requires |text| > 0
    ensures 0 < n <= |text|
    ensures forall i :: 0 <= i < n - 1 ==> text[i] != '\n'
    ensures text[n - 1] == '\n' || n == |text|
  {
    if text[0] == '\n' || |text| == 1 then 1 else 1 + LineLength(text[1..])
  }

  /**
   * `for line in file` on a file opened in text mode (whose line endings
   * have become "\n"): each line keeps its newline, the last one may lack it.
   */
  function Lines(text: string): (r: seq<string>)
    ensures forall k :: 0 <= k < |r| ==> |r[k]| > 0
    ensures forall k :: 0 <= k < |r| - 1 ==> r[k][|r[k]| - 1] == '\n'
    decreases |text|
  {
    if |text| == 0 then [] else
      var n := LineLength(text);
      [text[..n]] + Lines(text[n..])
  }

  function Concat(lines: seq<string>): string {
    if |lines| == 0 then "" else lines[0] + Concat(lines[1..])
  }

  /** The lines put back together give the text; no line holds a newline before its end. */
  lemma {:induction false} LinesConcat(text: string)
    ensures Concat(Lines(text)) == text
    ensures forall k, i :: 0 <= k < |Lines(text)| && 0 <= i < |Lines(text)[k]| - 1 ==> Lines(text)[k][i] != '\n'
    decreases |text|
  {
    if |text| > 0 {
      var n := LineLength(text);
      LinesConcat(text[n..]);
      assert Lines(text)[1..] == Lines(text[n..]);
      assert text[..n] + text[n..] == text;
      forall k, i | 0 <= k < |Lines(text)| && 0 <= i < |Lines(text)[k]| - 1
        ensures Lines(text)[k][i] != '\n'
      {
        if k > 0 {
          assert Lines(text)[k] == Lines(text[n..])[k - 1];
        }
      }
    }
  }

  // ----- str.split() -----

  /** The length of the word `s` starts with. */
  function WordLength(s: string): (n: nat)
    ensures n <= |s|
    ensures forall i :: 0 <= i < n ==> !IsSpace(s[i])
    ensures n == |s| || IsSpace(s[n])
  {
    if |s| == 0 || IsSpace(s[0]) then 0 else 1 + WordLength(s[1..])
  }

  /** `s.split()`: the maximal runs of non-whitespace, in order. */
  function Split(s: string): (r: seq<string>)
    ensures forall k :: 0 <= k < |r| ==> IsToken(r[k])
    decreases |s|
  {
    if |s| == 0 then []
    else if IsSpace(s[0]) then Split(s[1..])
    else
      var n := WordLength(s);
      [s[..n]] + Split(s[n..])
  }

  /** `" ".join(tokens)`. */
  function Join(tokens: seq<string>): string {
    if |tokens| == 0 then ""
    else if |tokens| == 1 then tokens[0]
    else tokens[0] + " " + Join(tokens[1..])
  }

  /** A word followed by whitespace or by nothing is the first word. */
  lemma {:induction false} WordLengthOf(w: string, rest: string)
    requires IsToken(w) && (|rest| == 0 || IsSpace(rest[0]))
    ensures WordLength(w + rest) == |w|
    decreases |w|
  {
    if |w| > 1 {
      assert (w + rest)[1..] == w[1..] + rest;
      WordLengthOf(w[1..], rest);
    } else {
      assert (w + rest)[1..] == rest;
    }
  }

  lemma SplitWord(w: string, rest: string)
    requires IsToken(w) && (|rest| == 0 || IsSpace(rest[0]))
    ensures Split(w + rest) == [w] + Split(rest)
  {
    WordLengthOf(w, rest);
    assert (w + rest)[..|w|] == w;
    assert (w + rest)[|w|..] == rest;
  }

  /** Splitting the words joined with single spaces gives back the words. */
  lemma {:induction false} SplitJoin(tokens: seq<string>)
    requires forall k :: 0 <= k < |tokens| ==> IsToken(tokens[k])
    ensures Split(Join(tokens)) == tokens
  {
    if |tokens| == 1 {
      SplitWord(tokens[0], "");
      assert tokens[0] + "" == tokens[0];
    } else if |tokens| > 1 {
      var rest := " " + Join(tokens[1..]);
      assert tokens[0] + " " + Join(tokens[1..]) == tokens[0] + rest;
      SplitWord(tokens[0], rest);
      assert rest[1..] == Join(tokens[1..]);
      SplitJoin(tokens[1..]);
    }
  }

  /** Leading whitespace does not change the words. */
  lemma {:induction false} SplitSkips(s: string, k: nat)
    requires k <= |s| && AllSpace(s[..k])
    ensures Split(s[k..]) == Split(s)
    decreases k
  {
    if k > 0 {
      assert s[..k][0] == s[0];
      assert s[1..][..k - 1] == s[..k][1..];
      SplitSkips(s[1..], k - 1);
      assert s[1..][k - 1..] == s[k..];
    }
  }

  /** Trailing whitespace does not change the words. */
  lemma {:induction false} SplitTrailing(x: string, y: string)
    requires AllSpace(y)
    ensures Split(x + y) == Split(x)
    decreases |x| + |y|
  {
    if |x| == 0 {
      assert x + y == y;
      if |y| > 0 {
        SplitTrailing(x, y[1..]);
        assert x + y[1..] == y[1..];
      }
    } else if IsSpace(x[0]) {
      assert (x + y)[1..] == x[1..] + y;
      SplitTrailing(x[1..], y);
    } else {
      var n := WordLength(x);
      if n == |x| {
        assert x == x[..n] + "";
        assert (x + y) == x[..n] + y;
        SplitWord(x[..n], y);
        SplitWord(x[..n], "");
        SplitTrailing("", y);
        assert "" + y == y;
      } else {
        assert (x + y)[..n] == x[..n];
        assert WordLength(x + y) == n by {
          WordLengthOf(x[..n], x[n..] + y);
          assert x[..n] + (x[n..] + y) == x + y;
        }
        assert (x + y)[n..] == x[n..] + y;
        SplitTrailing(x[n..], y);
      }
    }
  }

  // ----- str.strip() -----

  /** The number of whitespace characters `s` starts with. */
  function Leading(s: string): (n: nat)
    ensures n <= |s|
    ensures forall i :: 0 <= i < n ==> IsSpace(s[i])
    ensures n == |s| || !IsSpace(s[n])
  {
    if |s| == 0 || !IsSpace(s[0]) then 0 else 1 + Leading(s[1..])
  }

  /** The number of whitespace characters `s` ends with. */
  function Trailing(s: string): (n: nat)
    ensures n <= |s|
    ensures forall i :: |s| - n <= i < |s| ==> IsSpace(s[i])
    ensures n == |s| || !IsSpace(s[|s| - 1 - n])
  {
    if |s| == 0 || !IsSpace(s[|s| - 1]) then 0 else 1 + Trailing(s[..|s| - 1])
  }

  /**
   * `s.strip()`: `s` without its leading and trailing whitespace; what is
   * left starts and ends with a non-whitespace character.
   */
  function Strip(s: string): (r: string)
    ensures |r| == 0 || (!IsSpace(r[0]) && !IsSpace(r[|r| - 1]))
    ensures |r| == 0 <==> AllSpace(s)
  {
    var lead := Leading(s);
    if lead == |s| then ""
    else
      assert !IsSpace(s[lead]);
      s[lead..|s| - Trailing(s)]
  }

  /** What `strip()` removes is whitespace at either end, and nothing else goes. */
  lemma StripSlice(s: string)
    ensures exists i, j :: 0 <= i <= j <= |s| && Strip(s) == s[i..j] && AllSpace(s[..i]) && AllSpace(s[j..])
  {
    var lead := Leading(s);
    if lead == |s| {
      assert Strip(s) == s[lead..lead] && AllSpace(s[..lead]) && AllSpace(s[lead..]);
    } else {
      var j := |s| - Trailing(s);
      assert Strip(s) == s[lead..j] && AllSpace(s[..lead]) && AllSpace(s[j..]);
    }
  }

  /** Stripping first does not change the words of `split()`. */
  lemma StripSplit(s: string)
    ensures Split(Strip(s)) == Split(s)
  {
    StripSlice(s);
    var i, j :| 0 <= i <= j <= |s| && Strip(s) == s[i..j] && AllSpace(s[..i]) && AllSpace(s[j..]);
    SplitSkips(s, i);
    SliceJoin(s, i, j);
    SplitTrailing(s[i..j], s[j..]);
  }

  lemma SliceJoin(s: string, i: nat, j: nat)
    requires i <= j <= |s|
    ensures s[i..] == s[i..j] + s[j..]
  {
  }

  // ----- get_specrun_command -----

  predicate StartsWith(s: string, prefix: string) {
    |prefix| <= |s| && s[..|prefix|] == prefix
  }

  /** A line that holds a command: once stripped, it is not a comment and has a word. */
  predicate IsCommandLine(line: string) {
    var stripped := Strip(line);
    !StartsWith(stripped, "#") && |Split(stripped)| > 0
  }

  /** The loop of `get_specrun_command` (scripts/util/spec.py:62-72) over the lines. */
  function FirstCommand(lines: seq<string>): Option<seq<string>> {
    if |lines| == 0 then None
    else if IsCommandLine(lines[0]) then Some(Split(Strip(lines[0])))
    else FirstCommand(lines[1..])
  }

  /** `get_specrun_command` on the text of the specrun script. */
  function GetSpecrunCommand(text: string): Option<seq<string>> {
    FirstCommand(Lines(text))
  }

  /**
   * There is a command exactly when some line holds one, and it is the
   * words of the first such line.
   */
  lemma {:induction false} FirstCommandIsFirst(lines: seq<string>)
    ensures FirstCommand(lines).Some? <==> exists i :: 0 <= i < |lines| && IsCommandLine(lines[i])
    ensures FirstCommand(lines).Some? ==>
      exists i :: (&& 0 <= i < |lines| && IsCommandLine(lines[i])
                   && (forall j :: 0 <= j < i ==> !IsCommandLine(lines[j]))
                   && FirstCommand(lines).value == Split(Strip(lines[i])))
  {
    if |lines| > 0 {
      if IsCommandLine(lines[0]) {
        assert FirstCommand(lines).value == Split(Strip(lines[0]));
      } else {
        var tail := lines[1..];
        FirstCommandIsFirst(tail);
        assert FirstCommand(lines) == FirstCommand(tail);
        if FirstCommand(tail).Some? {
          var i :| && 0 <= i < |tail| && IsCommandLine(tail[i])
                   && (forall j :: 0 <= j < i ==> !IsCommandLine(tail[j]))
                   && FirstCommand(tail).value == Split(Strip(tail[i]));
          assert lines[i + 1] == tail[i];
          forall j | 0 <= j < i + 1 ensures !IsCommandLine(lines[j]) {
            if j > 0 {
              assert lines[j] == tail[j - 1];
            }
          }
        }
        if exists i :: 0 <= i < |lines| && IsCommandLine(lines[i]) {
          var i :| 0 <= i < |lines| && IsCommandLine(lines[i]);
          assert lines[i] == tail[i - 1];
        }
      }
    }
  }

  /**
   * The words of a command line: as many as `split()` gives without the
   * strip, at least one, and the first does not start a comment.
   */
  lemma CommandWords(line: string)
    requires IsCommandLine(line)
    ensures Split(Strip(line)) == Split(line)
    ensures |Split(line)| > 0 && Split(line)[0][0] != '#'
  {
    StripSplit(line);
    var s := Strip(line);
    assert !IsSpace(s[0]);
    assert Split(s)[0] == s[..WordLength(s)];
    assert s[..1] == [s[0]];
  }

  /** A command found is never empty, and its first word is not a comment. */
  lemma FirstCommandWords(lines: seq<string>)
    ensures FirstCommand(lines).Some? ==>
      && |FirstCommand(lines).value| > 0
      && (forall k :: 0 <= k < |FirstCommand(lines).value| ==> IsToken(FirstCommand(lines).value[k]))
      && FirstCommand(lines).value[0][0] != '#'
  {
    FirstCommandIsFirst(lines);
    if FirstCommand(lines).Some? {
      var i :| && 0 <= i < |lines| && IsCommandLine(lines[i])
               && (forall j :: 0 <= j < i ==> !IsCommandLine(lines[j]))
               && FirstCommand(lines).value == Split(Strip(lines[i]));
      CommandWords(lines[i]);
    }
  }

  // ----- SpecCommand.__init__ -----

  /** The first index of `t` in `list`: `list.index(t)`. */
  function IndexOf(list: seq<string>, t: string): (i: nat)
    requires t in list
    ensures i < |list| && list[i] == t
    ensures forall q :: 0 <= q < i ==> list[q] != t
  {
    if list[0] == t then 0 else 1 + IndexOf(list[1..], t)
  }

  /** Whether the loop rewrites `token`: it is not "." and names an existing file under the script's directory. */
  predicate Rewrites(token: string, onDisk: string -> bool) {
    token != "." && onDisk(token)
  }

  /**
   * One iteration of the rewrite loop at position `i`: the token read
   * there, when it names an existing file, replaces the FIRST element equal
   * to it by its path under the script's directory (`resolve`).
   */
  function RewriteAt(list: seq<string>, i: nat, onDisk: string -> bool, resolve: string -> string): (r: seq<string>)
    requires i < |list|
    ensures |r| == |list|
  {
    var token := list[i];
    if Rewrites(token, onDisk) then list[IndexOf(list, token) := resolve(token)] else list
  }

  /** The iterations of the rewrite loop from position `i` to the end. */
  function RewriteFrom(list: seq<string>, i: nat, onDisk: string -> bool, resolve: string -> string): (r: seq<string>)
    ensures |r| == |list|
    decreases |list| - i
  {
    if i >= |list| then list else RewriteFrom(RewriteAt(list, i, onDisk, resolve), i + 1, onDisk, resolve)
  }

  /**
   * The loop of scripts/util/spec.py:98-101, rewriting `parsed_command` in
   * place; positions holding "." keep it.
   */
  method RewriteTokens(command: seq<string>, onDisk: string -> bool, resolve: string -> string)
    returns (parsed: seq<string>)
    ensures parsed == RewriteFrom(command, 0, onDisk, resolve)
    ensures |parsed| == |command|
    ensures forall p :: 0 <= p < |command| && command[p] == "." ==> parsed[p] == "."
  {
    parsed := command;
    var i := 0;
    while i < |parsed|
      invariant i <= |parsed| == |command|
      invariant RewriteFrom(parsed, i, onDisk, resolve) == RewriteFrom(command, 0, onDisk, resolve)
      invariant forall p :: 0 <= p < |command| && command[p] == "." ==> parsed[p] == "."
    {
      var token := parsed[i];
      if token != "." && onDisk(token) {
        parsed := parsed[IndexOf(parsed, token) := resolve(token)];
      }
      i := i + 1;
    }
  }

  /** A token as a rewrite of its own position alone would leave it. */
  function Resolved(token: string, onDisk: string -> bool, resolve: string -> string): string {
    if Rewrites(token, onDisk) then resolve(token) else token
  }

  /** The first `i` tokens resolved, the rest as read. */
  function ResolvedUpTo(command: seq<string>, i: nat, onDisk: string -> bool, resolve: string -> string): (r: seq<string>)
    ensures |r| == |command|
  {
    seq(|command|, p requires 0 <= p < |command| =>
      if p < i then Resolved(command[p], onDisk, resolve) else command[p])
  }

  /** No rewritten token's path is itself one of the tokens. */
  predicate PathsNotTokens(command: seq<string>, onDisk: string -> bool, resolve: string -> string) {
    forall i, j :: 0 <= i < |command| && 0 <= j < |command| && Rewrites(command[i], onDisk) ==>
      resolve(command[i]) != command[j]
  }

  /** `index` finds `t` at `i` when it is there and nowhere before. */
  lemma IndexOfFirst(list: seq<string>, t: string, i: nat)
    requires i < |list| && list[i] == t && forall q :: 0 <= q < i ==> list[q] != t
    ensures IndexOf(list, t) == i
  {
    var j := IndexOf(list, t);
    assert !(j < i);
    assert !(i < j);
  }

  /** With the first `i` tokens resolved, the iteration at `i` resolves token `i`. */
  lemma ResolveStep(command: seq<string>, i: nat, onDisk: string -> bool, resolve: string -> string)
    requires i < |command| && PathsNotTokens(command, onDisk, resolve)
    ensures RewriteAt(ResolvedUpTo(command, i, onDisk, resolve), i, onDisk, resolve)
         == ResolvedUpTo(command, i + 1, onDisk, resolve)
  {
    var list := ResolvedUpTo(command, i, onDisk, resolve);
    var token := command[i];
    assert list[i] == token;
    if Rewrites(token, onDisk) {
      forall q | 0 <= q < i ensures list[q] != token {
        assert list[q] == Resolved(command[q], onDisk, resolve);
      }
      IndexOfFirst(list, token, i);
    }
  }

  lemma {:induction false} RewriteFromResolves(command: seq<string>, i: nat, onDisk: string -> bool, resolve: string -> string)
    requires i <= |command| && PathsNotTokens(command, onDisk, resolve)
    ensures RewriteFrom(ResolvedUpTo(command, i, onDisk, resolve), i, onDisk, resolve)
         == ResolvedUpTo(command, |command|, onDisk, resolve)
    decreases |command| - i
  {
    if i < |command| {
      ResolveStep(command, i, onDisk, resolve);
      RewriteFromResolves(command, i + 1, onDisk, resolve);
    }
  }

  /**
   * When no rewritten path is one of the tokens, the loop resolves every
   * token at its own position.
   */
  lemma RewriteIsPositionwise(command: seq<string>, onDisk: string -> bool, resolve: string -> string)
    requires PathsNotTokens(command, onDisk, resolve)
    ensures var r := RewriteFrom(command, 0, onDisk, resolve);
      forall p :: 0 <= p < |command| ==> r[p] == Resolved(command[p], onDisk, resolve)
  {
    assert ResolvedUpTo(command, 0, onDisk, resolve) == command;
    RewriteFromResolves(command, 0, onDisk, resolve);
  }

  /**
   * Without that condition the loop can differ: in a script directory "d"
   * with files "x" and "d/x" under it, the tokens "x" and "d/x" become
   * "d/d/x" and "d/x", since the second iteration finds the already
   * rewritten first token by `index`.
   */
  lemma RewriteRereadsEarlierToken()
    ensures var onDisk := (t: string) => t == "x" || t == "d/x";
      var resolve := (t: string) => "d/" + t;
      && RewriteFrom(["x", "d/x"], 0, onDisk, resolve) == ["d/d/x", "d/x"]
      && Resolved("x", onDisk, resolve) == "d/x"
  {
    var onDisk := (t: string) => t == "x" || t == "d/x";
    var resolve := (t: string) => "d/" + t;
    var l0: seq<string> := ["x", "d/x"];
    assert "d/" + "x" == "d/x" && "d/" + "d/x" == "d/d/x";
    assert IndexOf(l0, "x") == 0;
    var l1 := RewriteAt(l0, 0, onDisk, resolve);
    assert l1 == ["d/x", "d/x"];
    assert IndexOf(l1, "d/x") == 0;
    assert RewriteAt(l1, 1, onDisk, resolve) == ["d/d/x", "d/x"];
    assert RewriteFrom(l0, 0, onDisk, resolve) == RewriteFrom(l1, 1, onDisk, resolve);
  }

  /** A SpecCommand: `benchmark`, `bin`, `cwd` and `args`. */
  datatype SpecCommand = SpecCommand(benchmark: string, bin: string, cwd: string, args: seq<string>)

  /** `child / "specrun.sh"` for the benchmark's directory `child`. */
  function SpecrunFile(dir: string): string {
    dir + "/specrun.sh"
  }

  /**
   * `SpecCommand.__init__` (scripts/util/spec.py:76-106). `specrunDir` is
   * the benchmark directory `get_specrun_file` found, `text` the content of
   * its specrun.sh, `onDisk` the test `(specrun_cwd / token).exists()` and
   * `resolve` the text of `specrun_cwd / token`.
   */
  method NewSpecCommand(benchmark: string, specrunDir: Option<string>, text: string,
                        onDisk: string -> bool, resolve: string -> string)
    returns (r: Result<SpecCommand>)
    ensures specrunDir.None? ==> r == Err(FileNotFoundError(NoSpecrunFile(benchmark)))
    ensures specrunDir.Some? && GetSpecrunCommand(text).None? ==>
      r == Err(ValueError(NoCommand(SpecrunFile(specrunDir.value))))
    ensures specrunDir.Some? && GetSpecrunCommand(text).Some? && |GetSpecrunCommand(text).value| == 0 ==>
      r == Err(ValueError(EmptyCommand(SpecrunFile(specrunDir.value))))
    ensures r.Ok? <==> specrunDir.Some? && GetSpecrunCommand(text).Some? && |GetSpecrunCommand(text).value| > 0
    ensures r.Ok? ==>
      var command := GetSpecrunCommand(text).value;
      var parsed := RewriteFrom(command, 0, onDisk, resolve);
      && r.value.benchmark == benchmark && r.value.cwd == specrunDir.value
      && r.value.bin == parsed[0]
      && [r.value.bin] + r.value.args == parsed
  {
    if specrunDir.None? {
      return Err(FileNotFoundError(NoSpecrunFile(benchmark)));
    }
    var cwd := specrunDir.value;
    var file := SpecrunFile(cwd);
    var command := GetSpecrunCommand(text);
    if command.None? {
      return Err(ValueError(NoCommand(file)));
    }
    if |command.value| == 0 {
      return Err(ValueError(EmptyCommand(file)));
    }
    var parsed := RewriteTokens(command.value, onDisk, resolve);
    var args := if |parsed| > 1 then parsed[1..] else [];
    r := Ok(SpecCommand(benchmark, parsed[0], cwd, args));
  }

  /** The "Empty command" error cannot arise: a command found has a word. */
  lemma CommandNeverEmpty(text: string)
    ensures GetSpecrunCommand(text).None? || |GetSpecrunCommand(text).value| > 0
  {
    FirstCommandWords(Lines(text));
  }
}
