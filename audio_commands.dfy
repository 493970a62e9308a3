/**
 * The command line of the service: a line of text is split on spaces, its first word is
 * matched case-insensitively against the command words, the argument count and numeric
 * arguments are checked, and the line becomes at most one call on the audio manager.
 */
module AudioCommands {
  import opened Wrappers

  /** One call on the audio manager interface. */
  datatype Command =
    | SetVolume(value: real)
    | SetVolumeById(id: string, value: real)
    | IncrementVolume
    | DecrementVolume
    | IncrementVolumeById(id: string)
    | DecrementVolumeById(id: string)
    | SetStepVolume(step: real)
    | SetMute
    | SetMuteById(id: string)
    | SetUnMute
    | SetUnMuteById(id: string)
    | ToggleMuted
    | ToggleMutedById(id: string)

  /** The platform's culture-dependent float parser, abstracted: None when the text is not
      a number. */
  type NumberParser = string -> Option<real>

  // ---------------------------------------------------------------------------
  // Characters and words

  /** The platform's white-space test: the ASCII controls TAB to CR, the space, NEL, NBSP,
      and the Unicode space, line and paragraph separators. */
  predicate IsWhiteSpace(c: char) {
    c == ' ' || '\t' <= c <= '\r' || c == '\U{0085}' || c == '\U{00A0}' || c == '\U{1680}'
    || '\U{2000}' <= c <= '\U{200A}' || c == '\U{2028}' || c == '\U{2029}' || c == '\U{202F}'
    || c == '\U{205F}' || c == '\U{3000}'
  }

  /** Empty or white space only, checked character by character from the front. */
  predicate IsBlank(s: string): (r: bool)
    ensures r <==> forall i :: 0 <= i < |s| ==> IsWhiteSpace(s[i])
    decreases |s|
  {
    s == [] || (IsWhiteSpace(s[0]) && IsBlank(s[1..]))
  }

  function LowerChar(c: char): char {
    if 'A' <= c <= 'Z' then (c as int + 32) as char else c
  }

  predicate IsCapital(c: char) {
    'A' <= c <= 'Z'
  }

  /** Invariant-culture lower case, for ASCII letters: every capital becomes the small letter
      at the same place in the alphabet, every other character is kept. */
  function Lower(s: string): (r: string)
    ensures |r| == |s|
    ensures forall i :: 0 <= i < |s| && IsCapital(s[i]) ==>
      'a' <= r[i] <= 'z' && r[i] as int - 'a' as int == s[i] as int - 'A' as int
    ensures forall i :: 0 <= i < |s| && !IsCapital(s[i]) ==> r[i] == s[i]
    ensures forall i :: 0 <= i < |r| ==> !IsCapital(r[i])
  {
    seq(|s|, i requires 0 <= i < |s| => LowerChar(s[i]))
  }

  /** The length of the word at the start of `s`: the characters before the first space. */
  function WordLength(s: string): (n: nat)
    ensures n <= |s|
    ensures forall i :: 0 <= i < n ==> s[i] != ' '
    ensures n < |s| ==> s[n] == ' '
    ensures s != [] && s[0] != ' ' ==> n >= 1
  {
    if s == [] || s[0] == ' ' then 0 else 1 + WordLength(s[1..])
  }

  /** Splitting on ' ' and dropping empty entries: the maximal runs of non-space characters. */
  function Tokenize(s: string): (parts: seq<string>)
    ensures forall i :: 0 <= i < |parts| ==> IsWord(parts[i])
    decreases |s|
  {
    if s == [] then []
    else if s[0] == ' ' then Tokenize(s[1..])
    else
      var n := WordLength(s);
      [s[..n]] + Tokenize(s[n..])
  }

  /** Words written with one space between neighbours. */
  function Join(words: seq<string>): string {
    if words == [] then ""
    else if |words| == 1 then words[0]
    else words[0] + " " + Join(words[1..])
  }

  /** Words that survive tokenising unchanged. */
  predicate IsWord(w: string) {
    w != [] && ' ' !in w
  }

  lemma {:induction false} WordLengthOfWord(w: string, rest: string)
    requires ' ' !in w
    requires rest == [] || rest[0] == ' '
    ensures WordLength(w + rest) == |w|
    decreases |w|
  {
    if w != [] {
      assert (w + rest)[1..] == w[1..] + rest;
      WordLengthOfWord(w[1..], rest);
    }
  }

  /** A word ending where a space or the end of the line begins is one token. */
  lemma TokenizeWordThen(w: string, rest: string)
    requires IsWord(w)
    requires rest == [] || rest[0] == ' '
    ensures Tokenize(w + rest) == [w] + Tokenize(rest)
  {
    var s := w + rest;
    WordLengthOfWord(w, rest);
    assert s[0] == w[0];
    assert s[..|w|] == w && s[|w|..] == rest;
  }

  /** Tokenising words joined by single spaces gives the words back. */
  lemma {:induction false} TokenizeJoin(words: seq<string>)
    requires forall i :: 0 <= i < |words| ==> IsWord(words[i])
    ensures Tokenize(Join(words)) == words
    decreases |words|
  {
    if words != [] {
      var w := words[0];
      assert IsWord(w);
      if |words| == 1 {
        TokenizeWordThen(w, "");
        assert w + "" == w;
      } else {
        var tail := Join(words[1..]);
        var rest := " " + tail;
        assert Join(words) == w + rest;
        TokenizeWordThen(w, rest);
        assert rest[0] == ' ' && rest[1..] == tail;
        TokenizeJoin(words[1..]);
        assert words == [w] + words[1..];
      }
    }
  }

  /** Every token is blank. */
  predicate AllBlank(parts: seq<string>) {
    forall i :: 0 <= i < |parts| ==> IsBlank(parts[i])
  }

  lemma AllBlankCons(w: string, parts: seq<string>)
    ensures AllBlank([w] + parts) <==> IsBlank(w) && AllBlank(parts)
  {
    var t := [w] + parts;
    assert t[0] == w;
    assert forall i :: 0 <= i < |parts| ==> parts[i] == t[i + 1];
  }

  /** A line is blank exactly when all its tokens are: splitting drops only spaces. */
  lemma {:induction false} BlankTokens(s: string)
    ensures IsBlank(s) <==> AllBlank(Tokenize(s))
    decreases |s|
  {
    if s != [] {
      if s[0] == ' ' {
        BlankTokens(s[1..]);
        assert Tokenize(s) == Tokenize(s[1..]);
        assert IsWhiteSpace(s[0]);
        assert IsBlank(s) == IsBlank(s[1..]);
      } else {
        var n := WordLength(s);
        BlankTokens(s[n..]);
        assert Tokenize(s) == [s[..n]] + Tokenize(s[n..]);
        AllBlankCons(s[..n], Tokenize(s[n..]));
        BlankSplit(s, n);
      }
    }
  }

  lemma BlankSplit(s: string, n: nat)
    requires n <= |s|
    ensures IsBlank(s) <==> IsBlank(s[..n]) && IsBlank(s[n..])
  {
    assert forall i :: 0 <= i < n ==> s[..n][i] == s[i];
    assert forall i :: n <= i < |s| ==> s[n..][i - n] == s[i];
  }

  // ---------------------------------------------------------------------------
  // Dispatch

  /** The word that selects each call. */
  function CommandWord(c: Command): string {
    match c
    case SetVolume(_) => "setvolume"
    case SetVolumeById(_, _) => "setvolumeid"
    case IncrementVolume => "upvolume"
    case DecrementVolume => "downvolume"
    case IncrementVolumeById(_) => "upvolumeid"
    case DecrementVolumeById(_) => "downvolumeid"
    case SetStepVolume(_) => "setstepvolume"
    case SetMute => "setmute"
    case SetMuteById(_) => "setmuteid"
    case SetUnMute => "setunmute"
    case SetUnMuteById(_) => "setunmuteid"
    case ToggleMuted => "togglemute"
    case ToggleMutedById(_) => "togglemuteid"
  }

  /** The switch on the lower-cased first word `command`, with its argument checks. */
  function Dispatch(command: string, parts: seq<string>, parseNumber: NumberParser): (r: Option<Command>)
    ensures r.Some? ==> command == CommandWord(r.value) && HasArguments(parts, parseNumber, r.value)
  {
    match command
    case "setvolume" =>
      if |parts| == 2 && parseNumber(parts[1]).Some? then Some(SetVolume(parseNumber(parts[1]).value)) else None
    case "setvolumeid" =>
      if |parts| == 3 && parseNumber(parts[2]).Some? then Some(SetVolumeById(parts[1], parseNumber(parts[2]).value)) else None
    case "upvolume" => Some(IncrementVolume)
    case "downvolume" => Some(DecrementVolume)
    case "upvolumeid" => if |parts| == 2 then Some(IncrementVolumeById(parts[1])) else None
    case "downvolumeid" => if |parts| == 2 then Some(DecrementVolumeById(parts[1])) else None
    case "setstepvolume" =>
      if |parts| == 2 && parseNumber(parts[1]).Some? then Some(SetStepVolume(parseNumber(parts[1]).value)) else None
    case "setmute" => Some(SetMute)
    case "setmuteid" => if |parts| == 2 then Some(SetMuteById(parts[1])) else None
    case "setunmute" => Some(SetUnMute)
    case "setunmuteid" => if |parts| == 2 then Some(SetUnMuteById(parts[1])) else None
    case "togglemute" => Some(ToggleMuted)
    case "togglemuteid" => if |parts| == 2 then Some(ToggleMutedById(parts[1])) else None
    case _ => None
  }

  /** The manager call a command line makes, if any. A blank line makes none. */
  function ProcessCommand(input: string, parseNumber: NumberParser): (r: Option<Command>)
    ensures IsBlank(input) ==> r.None?
    ensures r.Some? ==> Accepts(Tokenize(input), parseNumber, r.value)
  {
    if IsBlank(input) then None
    else
      var parts := Tokenize(input);
      if |parts| == 0 then None else Dispatch(Lower(parts[0]), parts, parseNumber)
  }

  // ---------------------------------------------------------------------------
  // What the dispatch means

  /**
   * The token shape that selects each call, command by command: its word in any case, then
   * exactly one numeric token for the set-volume and set-step commands, an id and a numeric
   * token for set-volume-by-id, exactly an id for the other by-id commands, and anything at
   * all after the word for the commands without arguments.
   */
  predicate Accepts(parts: seq<string>, parseNumber: NumberParser, c: Command) {
    |parts| >= 1 && Lower(parts[0]) == CommandWord(c) && HasArguments(parts, parseNumber, c)
  }

  /** The argument part of `Accepts`. */
  predicate HasArguments(parts: seq<string>, parseNumber: NumberParser, c: Command) {
    match c
    case SetVolume(v) => |parts| == 2 && parseNumber(parts[1]) == Some(v)
    case SetStepVolume(v) => |parts| == 2 && parseNumber(parts[1]) == Some(v)
    case SetVolumeById(id, v) => |parts| == 3 && parts[1] == id && parseNumber(parts[2]) == Some(v)
    case IncrementVolumeById(id) => |parts| == 2 && parts[1] == id
    case DecrementVolumeById(id) => |parts| == 2 && parts[1] == id
    case SetMuteById(id) => |parts| == 2 && parts[1] == id
    case SetUnMuteById(id) => |parts| == 2 && parts[1] == id
    case ToggleMutedById(id) => |parts| == 2 && parts[1] == id
    case _ => true
  }

  lemma CommandWordIsLetters(c: Command)
    ensures |CommandWord(c)| > 0 && 'a' <= CommandWord(c)[0] <= 'z'
  {
  }

  /** The switch selects call `c` exactly on the word of `c` with the arguments of `c`. */
  lemma DispatchIffAccepts(command: string, parts: seq<string>, parseNumber: NumberParser, c: Command)
    ensures Dispatch(command, parts, parseNumber) == Some(c) <==>
      command == CommandWord(c) && HasArguments(parts, parseNumber, c)
  {
  }

  /** A line makes call `c` exactly when its tokens have the shape that selects `c`. */
  lemma CallIffAccepts(input: string, parseNumber: NumberParser, c: Command)
    ensures ProcessCommand(input, parseNumber) == Some(c) <==> Accepts(Tokenize(input), parseNumber, c)
  {
    var parts := Tokenize(input);
    if parts != [] {
      DispatchIffAccepts(Lower(parts[0]), parts, parseNumber, c);
    }
    if Accepts(parts, parseNumber, c) {
      CommandWordIsLetters(c);
      assert LowerChar(parts[0][0]) == CommandWord(c)[0];
      assert !IsWhiteSpace(parts[0][0]);
      assert !IsBlank(parts[0]);
      assert !AllBlank(parts);
      BlankTokens(input);
    }
  }

  /** The command words the switch accepts. */
  const CommandWords: set<string> := {
    "setvolume", "setvolumeid", "upvolume", "downvolume", "upvolumeid", "downvolumeid",
    "setstepvolume", "setmute", "setmuteid", "setunmute", "setunmuteid", "togglemute", "togglemuteid"
  }

  /** A first word outside the command words, such as "setstep", makes no call. */
  lemma UnknownWordMakesNoCall(input: string, parseNumber: NumberParser)
    requires |Tokenize(input)| > 0 && Lower(Tokenize(input)[0]) !in CommandWords
    ensures ProcessCommand(input, parseNumber) == None
    ensures "setstep" !in CommandWords
  {
    var parts := Tokenize(input);
    if ProcessCommand(input, parseNumber).Some? {
      var c := ProcessCommand(input, parseNumber).value;
      DispatchIffAccepts(Lower(parts[0]), parts, parseNumber, c);
      assert false;
    }
  }

  /** A run of `k` spaces. */
  function Spaces(k: nat): string {
    seq(k, _ => ' ')
  }

  /** Spaces before a line are skipped. */
  lemma {:induction false} LeadingSpacesSkipped(k: nat, s: string)
    ensures Tokenize(Spaces(k) + s) == Tokenize(s)
    decreases k
  {
    if k > 0 {
      assert (Spaces(k) + s)[0] == ' ';
      assert (Spaces(k) + s)[1..] == Spaces(k - 1) + s;
      LeadingSpacesSkipped(k - 1, s);
    } else {
      assert Spaces(k) + s == s;
    }
  }

  /** A word followed by any positive number of spaces is one token. */
  lemma WordThenSpaces(w: string, k: nat, s: string)
    requires IsWord(w) && k >= 1
    ensures Tokenize(w + Spaces(k) + s) == [w] + Tokenize(s)
  {
    var line := w + Spaces(k) + s;
    WordLengthOfWord(w, Spaces(k) + s);
    assert line == w + (Spaces(k) + s);
    assert line[..|w|] == w && line[|w|..] == Spaces(k) + s;
    LeadingSpacesSkipped(k, s);
  }

  /** Lines whose tokens differ only in the case of the first word make the same call. */
  lemma SameTokensSameCall(s: string, t: string, parseNumber: NumberParser)
    requires |Tokenize(s)| == |Tokenize(t)| > 0
    requires Lower(Tokenize(s)[0]) == Lower(Tokenize(t)[0])
    requires Tokenize(s)[1..] == Tokenize(t)[1..]
    ensures ProcessCommand(s, parseNumber) == ProcessCommand(t, parseNumber)
  {
    var ps, pt := Tokenize(s), Tokenize(t);
    assert forall i :: 1 <= i < |ps| ==> ps[i] == pt[i] by {
      forall i | 1 <= i < |ps| ensures ps[i] == pt[i] {
        assert ps[1..][i - 1] == pt[1..][i - 1];
      }
    }
    forall c: Command ensures Accepts(ps, parseNumber, c) <==> Accepts(pt, parseNumber, c) {
    }
    if ProcessCommand(s, parseNumber).Some? {
      CallIffAccepts(s, parseNumber, ProcessCommand(s, parseNumber).value);
      CallIffAccepts(t, parseNumber, ProcessCommand(s, parseNumber).value);
    } else if ProcessCommand(t, parseNumber).Some? {
      CallIffAccepts(t, parseNumber, ProcessCommand(t, parseNumber).value);
      CallIffAccepts(s, parseNumber, ProcessCommand(t, parseNumber).value);
    }
  }

  /** Words each followed by its own run of spaces: `gaps[i]` spaces after `words[i]`. */
  function Spread(words: seq<string>, gaps: seq<nat>): string
    requires |gaps| == |words|
    decreases |words|
  {
    if words == [] then "" else words[0] + Spaces(gaps[0]) + Spread(words[1..], gaps[1..])
  }

  /** Words separated by at least one space, with any trailing spaces, are exactly the tokens. */
  lemma {:induction false} SpreadTokens(words: seq<string>, gaps: seq<nat>)
    requires |gaps| == |words|
    requires forall i :: 0 <= i < |words| ==> IsWord(words[i])
    requires forall i :: 0 <= i < |gaps| - 1 ==> gaps[i] >= 1
    ensures Tokenize(Spread(words, gaps)) == words
    decreases |words|
  {
    if words != [] {
      var w, tail := words[0], Spread(words[1..], gaps[1..]);
      SpreadTokens(words[1..], gaps[1..]);
      if gaps[0] >= 1 {
        WordThenSpaces(w, gaps[0], tail);
      } else {
        assert words[1..] == [] && tail == "";
        assert w + Spaces(gaps[0]) + tail == w + tail;
        TokenizeWordThen(w, tail);
      }
      assert words == [w] + words[1..];
    }
  }

  /** Lower-casing keeps a word a word and is idempotent. */
  lemma LowerOfWord(w: string)
    requires IsWord(w)
    ensures IsWord(Lower(w)) && Lower(Lower(w)) == Lower(w)
  {
    assert ' ' !in Lower(w);
  }

  /**
   * Spaces before, between and after the words, and the case of the command word, do not
   * change the call: `a` spaces, then the words with at least one space between neighbours
   * and any number after the last, parse like the lower-case command word followed by the
   * arguments with single spaces.
   */
  lemma SpacingAndCaseIgnored(a: nat, words: seq<string>, gaps: seq<nat>, parseNumber: NumberParser)
    requires |words| >= 1 && |gaps| == |words|
    requires forall i :: 0 <= i < |words| ==> IsWord(words[i])
    requires forall i :: 0 <= i < |gaps| - 1 ==> gaps[i] >= 1
    ensures ProcessCommand(Spaces(a) + Spread(words, gaps), parseNumber)
         == ProcessCommand(Join([Lower(words[0])] + words[1..]), parseNumber)
  {
    var loose := Spaces(a) + Spread(words, gaps);
    var canonical := [Lower(words[0])] + words[1..];
    LeadingSpacesSkipped(a, Spread(words, gaps));
    SpreadTokens(words, gaps);
    LowerOfWord(words[0]);
    assert forall i :: 1 <= i < |canonical| ==> canonical[i] == words[i];
    TokenizeJoin(canonical);
    assert canonical[1..] == words[1..];
    SameTokensSameCall(loose, Join(canonical), parseNumber);
  }

  // ---------------------------------------------------------------------------
  // Lines written by the front end

  /** The words of the line the front end writes for a call, numbers rendered by `show`. */
  function LineWords(c: Command, show: real -> string): seq<string> {
    match c
    case SetVolume(v) => [CommandWord(c), show(v)]
    case SetVolumeById(id, v) => [CommandWord(c), id, show(v)]
    case SetStepVolume(v) => [CommandWord(c), show(v)]
    case IncrementVolumeById(id) => [CommandWord(c), id]
    case DecrementVolumeById(id) => [CommandWord(c), id]
    case SetMuteById(id) => [CommandWord(c), id]
    case SetUnMuteById(id) => [CommandWord(c), id]
    case ToggleMutedById(id) => [CommandWord(c), id]
    case _ => [CommandWord(c)]
  }

  /** The line the front end writes for a call, without its line terminator. */
  function FrontEndLine(c: Command, show: real -> string): string {
    Join(LineWords(c, show))
  }

  /** The call's arguments survive the trip through text: ids are single words, and numbers
      are rendered as single words that the parser reads back as the same value. */
  predicate RoundTrips(c: Command, show: real -> string, parseNumber: NumberParser) {
    match c
    case SetVolume(v) => IsWord(show(v)) && parseNumber(show(v)) == Some(v)
    case SetStepVolume(v) => IsWord(show(v)) && parseNumber(show(v)) == Some(v)
    case SetVolumeById(id, v) => IsWord(id) && IsWord(show(v)) && parseNumber(show(v)) == Some(v)
    case IncrementVolumeById(id) => IsWord(id)
    case DecrementVolumeById(id) => IsWord(id)
    case SetMuteById(id) => IsWord(id)
    case SetUnMuteById(id) => IsWord(id)
    case ToggleMutedById(id) => IsWord(id)
    case _ => true
  }

  lemma LowerOfCommandWord(c: Command)
    ensures Lower(CommandWord(c)) == CommandWord(c)
  {
  }

  /** Every line the front end writes parses back to the call it was written for, provided
      ids contain no space and numbers render as parseable words. */
  lemma FrontEndLineRoundTrip(c: Command, show: real -> string, parseNumber: NumberParser)
    requires RoundTrips(c, show, parseNumber)
    ensures ProcessCommand(FrontEndLine(c, show), parseNumber) == Some(c)
  {
    LineWordsAreWords(c, show, parseNumber);
    TokenizeJoin(LineWords(c, show));
    LineWordsAccepted(c, show, parseNumber);
    CallIffAccepts(FrontEndLine(c, show), parseNumber, c);
  }

  lemma LineWordsAreWords(c: Command, show: real -> string, parseNumber: NumberParser)
    requires RoundTrips(c, show, parseNumber)
    ensures forall i :: 0 <= i < |LineWords(c, show)| ==> IsWord(LineWords(c, show)[i])
  {
    CommandWordIsLetters(c);
    assert ' ' !in CommandWord(c);
  }

  lemma LineWordsAccepted(c: Command, show: real -> string, parseNumber: NumberParser)
    requires RoundTrips(c, show, parseNumber)
    ensures Accepts(LineWords(c, show), parseNumber, c)
  {
    LowerOfCommandWord(c);
  }
}
