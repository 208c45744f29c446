/**
 * The voice-command interpreter of voice.js (`VoiceController`): the ordered command table,
 * the dispatch of a transcript to a handler, the handlers' utterances and callback calls,
 * the voice-mode and listening flags, and the answer-feedback streaks.
 *
 * A table pattern `p` is compiled by the source to `^p'$` with the flag `i`, where `p'` is
 * `p` with every whitespace run replaced by `\s+`. Every literal of those patterns is a
 * lower-case word without whitespace, so such a pattern matches exactly when the transcript
 * has no whitespace at either end and its `/\s+/` fields match the pattern's words, each
 * ignoring case. `Phrase` patterns are matched at that word level. The seventh pattern has no
 * whitespace to replace and is matched character by character (`OptionPlease`).
 */
module VoiceCommands {
  import opened Wrappers
  import opened Text

  /** The handler methods named in the command table. */
  datatype Handler =
    | NextQuestion
    | RepeatQuestion
    | ShowLeaderboard
    | RestartQuiz
    | OptionSelect
    | Help
    | ToggleVoice

  /** One word position of a pattern: a fixed word, or a capturing group of alternative word sequences. */
  datatype Part = Word(text: string) | Group(alts: seq<seq<string>>)

  /**
   * A table pattern. `Phrase` is a sequence of parts separated by `\s+`. `OptionPlease` is the
   * seventh entry, `(a|b|c|d|1|2|3|4)(?:\s+please)?` written in an ordinary string literal,
   * where `\s` stands for the letter `s`: one option character, optionally followed by one or
   * more `s` and `please`, with no whitespace anywhere.
   */
  datatype Pattern = Phrase(parts: seq<Part>) | OptionPlease

  /** The tokens that select an option directly: `a`, `b`, `c`, `d`, `1`, `2`, `3` or `4`. */
  predicate IsOptionToken(s: string)
  {
    |s| == 1 && ('a' <= s[0] <= 'd' || '1' <= s[0] <= '4')
  }

  /** The option tokens as single-word alternatives of a group. */
  const OptionAlts: seq<seq<string>> := [["a"], ["b"], ["c"], ["d"], ["1"], ["2"], ["3"], ["4"]]

  /** A command table: patterns with the handler each one selects, tried in order. */
  type Table = seq<(Pattern, Handler)>

  // The patterns of `setDefaultCommands`, one per entry, with the alternatives of each group.
  const NextQuestionAlts: seq<seq<string>> := [["question"], ["one"]]
  const QuestionThatAlts: seq<seq<string>> := [["question"], ["that"]]
  const LeaderboardAlts: seq<seq<string>> := [["leaderboard"], ["scores"]]
  const RestartAlts: seq<seq<string>> := [["restart"], ["start", "over"]]
  const QuizGameAlts: seq<seq<string>> := [["quiz"], ["game"]]
  const ReadSayAlts: seq<seq<string>> := [["read"], ["say"]]
  const AgainAlts: seq<seq<string>> := [["again"], ["one", "more", "time"]]

  const NextPattern: Pattern := Phrase([Word("next"), Group(NextQuestionAlts)])
  const RepeatPattern: Pattern := Phrase([Word("repeat"), Group(QuestionThatAlts)])
  const ShowPattern: Pattern := Phrase([Word("show"), Group(LeaderboardAlts)])
  const RestartPattern: Pattern := Phrase([Group(RestartAlts), Group(QuizGameAlts)])
  const ReadAgainPattern: Pattern := Phrase([Group(ReadSayAlts), Group(QuestionThatAlts), Group(AgainAlts)])
  /** The pattern that `processVoiceCommand` also tries last, on the lower-cased, trimmed transcript. */
  const OptionPhrase: Pattern := Phrase([Word("option"), Group(OptionAlts)])
  const SelectPattern: Pattern := Phrase([Word("select"), Group(OptionAlts)])
  const HelpPattern: Pattern := Phrase([Word("help")])
  const TogglePattern: Pattern := Phrase([Word("toggle"), Word("voice"), Word("mode")])

  /** `setDefaultCommands`: the command table in declaration order. */
  const DefaultCommands: Table := [
    (NextPattern, NextQuestion),
    (RepeatPattern, RepeatQuestion),
    (ShowPattern, ShowLeaderboard),
    (RestartPattern, RestartQuiz),
    (ReadAgainPattern, RepeatQuestion),
    (OptionPhrase, OptionSelect),
    (OptionPlease, OptionSelect),
    (SelectPattern, OptionSelect),
    (HelpPattern, Help),
    (TogglePattern, ToggleVoice)
  ]

  /**
   * `OptionPhrase` written out by hand: two words, `option` and an option token, ignoring case.
   * `OptionWordsMatch` shows it agrees with matching the pattern.
   */
  function OptionWords(lt: string): Option<string>
  {
    if Bare(lt) then
      var ws := SplitWs(lt);
      if |ws| == 2 && Lower(ws[0]) == "option" && IsOptionToken(Lower(ws[1])) then Some(ws[1]) else None
    else None
  }

  // ---------------------------------------------------------------------------------------------
  // Matching
  // ---------------------------------------------------------------------------------------------

  /** The first `|alt|` words of `ws` are the words of `alt`, ignoring case. */
  predicate StartsWithWords(ws: seq<string>, alt: seq<string>)
  {
    |alt| <= |ws| && forall k :: 0 <= k < |alt| ==> Lower(ws[k]) == alt[k]
  }

  /** Match the words `ws` against `parts`, returning the text of each group in order. */
  function MatchWords(ws: seq<string>, parts: seq<Part>): (r: Option<seq<string>>)
    ensures r.Some? ==> |r.value| == |GroupsOf(parts)|
    decreases |parts|, 1, 0
  {
    if parts == [] then (if ws == [] then Some([]) else None)
    else match parts[0]
      case Word(w) => if ws != [] && Lower(ws[0]) == w then MatchWords(ws[1..], parts[1..]) else None
      case Group(alts) => MatchAlts(ws, alts, parts[1..])
  }

  /** Try the alternatives of a group in order, backtracking when the rest of the pattern fails. */
  function MatchAlts(ws: seq<string>, alts: seq<seq<string>>, rest: seq<Part>): (r: Option<seq<string>>)
    ensures r.Some? ==> |r.value| == 1 + |GroupsOf(rest)|
    decreases |rest| + 1, 0, |alts|
  {
    if alts == [] then None
    else if StartsWithWords(ws, alts[0]) then
      match MatchWords(ws[|alts[0]|..], rest)
      case Some(groups) => Some([Join(ws[..|alts[0]|], " ")] + groups)
      case None => MatchAlts(ws, alts[1..], rest)
    else MatchAlts(ws, alts[1..], rest)
  }

  /** The capturing groups of a pattern. */
  function GroupsOf(parts: seq<Part>): seq<seq<seq<string>>>
  {
    if parts == [] then []
    else if parts[0].Group? then [parts[0].alts] + GroupsOf(parts[1..])
    else GroupsOf(parts[1..])
  }

  // ---------------------------------------------------------------------------------------------
  // What a pattern accepts, stated without backtracking
  // ---------------------------------------------------------------------------------------------

  /** `choice` picks one alternative for each capturing group of `parts`, in order. */
  predicate ChoiceFits(parts: seq<Part>, choice: seq<nat>)
    decreases |parts|
  {
    if parts == [] then choice == []
    else match parts[0]
      case Word(_) => ChoiceFits(parts[1..], choice)
      case Group(alts) => choice != [] && choice[0] < |alts| && ChoiceFits(parts[1..], choice[1..])
  }

  /** The words the pattern reads when each group takes the alternative `choice` picks. */
  function Spelled(parts: seq<Part>, choice: seq<nat>): seq<string>
    requires ChoiceFits(parts, choice)
    decreases |parts|
  {
    if parts == [] then []
    else match parts[0]
      case Word(w) => [w] + Spelled(parts[1..], choice)
      case Group(alts) => alts[choice[0]] + Spelled(parts[1..], choice[1..])
  }

  /** What the groups capture under `choice`, once lower-cased: each chosen alternative joined with spaces. */
  function Captured(parts: seq<Part>, choice: seq<nat>): seq<string>
    requires ChoiceFits(parts, choice)
    decreases |parts|
  {
    if parts == [] then []
    else match parts[0]
      case Word(_) => Captured(parts[1..], choice)
      case Group(alts) => [Join(alts[choice[0]], " ")] + Captured(parts[1..], choice[1..])
  }

  /** Every word lower-cased. */
  function LowerWords(ws: seq<string>): (r: seq<string>)
    ensures |r| == |ws| && forall k :: 0 <= k < |ws| ==> r[k] == Lower(ws[k])
  {
    seq(|ws|, k requires 0 <= k < |ws| => Lower(ws[k]))
  }

  /** The words, lower-cased, spell the pattern under some choice of alternatives, with these captures. */
  predicate SpellsWith(ws: seq<string>, parts: seq<Part>, groups: seq<string>, choice: seq<nat>)
  {
    ChoiceFits(parts, choice) && LowerWords(ws) == Spelled(parts, choice) && LowerWords(groups) == Captured(parts, choice)
  }

  lemma LowerWordsSplit(ws: seq<string>, n: nat)
    requires n <= |ws|
    ensures LowerWords(ws) == LowerWords(ws[..n]) + LowerWords(ws[n..])
  {
  }

  /** Lower-casing a space-joined list lower-cases each part. */
  lemma {:induction false} LowerJoin(ws: seq<string>)
    ensures Lower(Join(ws, " ")) == Join(LowerWords(ws), " ")
  {
    if |ws| > 1 {
      LowerJoin(ws[1..]);
      assert LowerWords(ws)[1..] == LowerWords(ws[1..]);
      LowerConcat(ws[0] + " ", Join(ws[1..], " "));
      LowerConcat(ws[0], " ");
    }
  }

  /** Whatever `MatchWords` accepts spells the pattern, and its captures are the chosen alternatives. */
  lemma {:induction false} MatchWordsSound(ws: seq<string>, parts: seq<Part>)
    requires MatchWords(ws, parts).Some?
    ensures exists choice :: SpellsWith(ws, parts, MatchWords(ws, parts).value, choice)
    decreases |parts|, 1, 0
  {
    if parts == [] {
      assert SpellsWith(ws, parts, [], []);
    } else {
      match parts[0]
      case Word(w) =>
        assert ws != [] && Lower(ws[0]) == w && MatchWords(ws, parts) == MatchWords(ws[1..], parts[1..]);
        MatchWordsSound(ws[1..], parts[1..]);
        var g := MatchWords(ws, parts).value;
        var choice :| SpellsWith(ws[1..], parts[1..], g, choice);
        assert LowerWords(ws) == [w] + LowerWords(ws[1..]) by {
          LowerWordsSplit(ws, 1);
        }
        assert ChoiceFits(parts, choice) && Spelled(parts, choice) == [w] + Spelled(parts[1..], choice);
        assert Captured(parts, choice) == Captured(parts[1..], choice);
        assert SpellsWith(ws, parts, g, choice);
      case Group(alts) =>
        assert parts == [Group(alts)] + parts[1..];
        MatchAltsSound(ws, alts, parts[1..]);
    }
  }

  /** Whatever `MatchAlts` accepts spells the group followed by the rest of the pattern. */
  lemma {:induction false} MatchAltsSound(ws: seq<string>, alts: seq<seq<string>>, rest: seq<Part>)
    requires MatchAlts(ws, alts, rest).Some?
    ensures exists choice :: SpellsWith(ws, [Group(alts)] + rest, MatchAlts(ws, alts, rest).value, choice)
    decreases |rest| + 1, 0, |alts|
  {
    var parts := [Group(alts)] + rest;
    assert parts[0] == Group(alts) && parts[1..] == rest;
    var n := |alts[0]|;
    if StartsWithWords(ws, alts[0]) && MatchWords(ws[n..], rest).Some? {
      var g := MatchWords(ws[n..], rest).value;
      MatchWordsSound(ws[n..], rest);
      var c :| SpellsWith(ws[n..], rest, g, c);
      var choice := [0] + c;
      assert choice[0] == 0 && choice[1..] == c;
      LowerWordsSplit(ws, n);
      assert LowerWords(ws[..n]) == alts[0];
      var captured := [Join(ws[..n], " ")] + g;
      LowerJoin(ws[..n]);
      assert LowerWords(captured) == [Lower(Join(ws[..n], " "))] + LowerWords(g);
      assert SpellsWith(ws, parts, captured, choice);
    } else {
      MatchAltsSound(ws, alts[1..], rest);
      var r := MatchAlts(ws, alts, rest).value;
      var parts' := [Group(alts[1..])] + rest;
      assert parts'[0] == Group(alts[1..]) && parts'[1..] == rest;
      var c :| SpellsWith(ws, parts', r, c);
      var choice := [c[0] + 1] + c[1..];
      assert choice[0] == c[0] + 1 && choice[1..] == c[1..];
      assert alts[choice[0]] == alts[1..][c[0]];
      assert SpellsWith(ws, parts, r, choice);
    }
  }

  /** `MatchWords` accepts every word list that spells the pattern under some choice of alternatives. */
  lemma {:induction false} MatchWordsComplete(ws: seq<string>, parts: seq<Part>, choice: seq<nat>)
    requires ChoiceFits(parts, choice) && LowerWords(ws) == Spelled(parts, choice)
    ensures MatchWords(ws, parts).Some?
    decreases |parts|, 1, 0
  {
    if parts != [] {
      match parts[0]
      case Word(w) =>
        LowerWordsSplit(ws, 1);
        MatchWordsComplete(ws[1..], parts[1..], choice);
      case Group(alts) =>
        assert parts == [Group(alts)] + parts[1..];
        MatchAltsComplete(ws, alts, parts[1..], choice);
    }
  }

  /** Backtracking over the alternatives finds a match whenever some alternative leads to one. */
  lemma {:induction false} MatchAltsComplete(ws: seq<string>, alts: seq<seq<string>>, rest: seq<Part>, choice: seq<nat>)
    requires ChoiceFits([Group(alts)] + rest, choice) && LowerWords(ws) == Spelled([Group(alts)] + rest, choice)
    ensures MatchAlts(ws, alts, rest).Some?
    decreases |rest| + 1, 0, |alts|
  {
    var parts := [Group(alts)] + rest;
    assert parts[0] == Group(alts) && parts[1..] == rest;
    var i := choice[0];
    var n := |alts[i]|;
    if i == 0 {
      LowerWordsSplit(ws, n);
      assert StartsWithWords(ws, alts[0]);
      MatchWordsComplete(ws[n..], rest, choice[1..]);
    } else if !(StartsWithWords(ws, alts[0]) && MatchWords(ws[|alts[0]|..], rest).Some?) {
      var parts' := [Group(alts[1..])] + rest;
      assert parts'[0] == Group(alts[1..]) && parts'[1..] == rest;
      var choice' := [i - 1] + choice[1..];
      assert choice'[0] == i - 1 && choice'[1..] == choice[1..];
      assert alts[1..][i - 1] == alts[i];
      MatchAltsComplete(ws, alts[1..], rest, choice');
    }
  }

  /**
   * A `Phrase` pattern matches a transcript exactly when the transcript has no whitespace at
   * either end and its fields, lower-cased, spell the pattern under some choice of alternatives;
   * each captured group is then, lower-cased, its chosen alternative joined with spaces.
   */
  lemma MatchPhrase(parts: seq<Part>, t: string)
    ensures Match(Phrase(parts), t).Some? <==>
      Bare(t) && exists choice :: ChoiceFits(parts, choice) && LowerWords(SplitWs(t)) == Spelled(parts, choice)
    ensures Match(Phrase(parts), t).Some? ==>
      exists choice :: SpellsWith(SplitWs(t), parts, Match(Phrase(parts), t).value, choice)
  {
    if Bare(t) {
      var ws := SplitWs(t);
      if MatchWords(ws, parts).Some? {
        MatchWordsSound(ws, parts);
        var c :| SpellsWith(ws, parts, MatchWords(ws, parts).value, c);
        assert ChoiceFits(parts, c) && LowerWords(ws) == Spelled(parts, c);
      } else {
        forall choice | ChoiceFits(parts, choice) && LowerWords(ws) == Spelled(parts, choice)
          ensures false
        {
          MatchWordsComplete(ws, parts, choice);
        }
      }
    }
  }

  /** `n` copies of the letter `s`. */
  function Esses(n: nat): (r: string)
    ensures |r| == n
  {
    seq(n, _ => 's')
  }

  /** `SPlease` is one or more `s` and then `please`, ignoring case. */
  lemma SPleaseIff(rest: string)
    ensures SPlease(rest) <==> exists n: nat :: n >= 1 && Lower(rest) == Esses(n) + "please"
  {
    if SPlease(rest) {
      var n := |rest| - 6;
      assert Lower(rest) == Lower(rest[..n]) + Lower(rest[n..]) by {
        assert rest == rest[..n] + rest[n..];
        LowerConcat(rest[..n], rest[n..]);
      }
      assert Lower(rest[..n]) == Esses(n);
    } else {
      forall n: nat | n >= 1 && Lower(rest) == Esses(n) + "please" ensures false {
        assert Lower(rest[|rest| - 6..]) == Lower(rest)[n..];
        assert forall k :: 0 <= k < |rest| - 6 ==> LowerChar(rest[k]) == Lower(rest)[k];
      }
    }
  }

  /**
   * The seventh pattern matches a transcript exactly when it is one option character, in either
   * case, alone or followed by one or more `s` and `please`; the one group is that character.
   */
  lemma MatchOptionPlease(t: string)
    ensures Match(OptionPlease, t).Some? <==>
      t != [] && IsOptionToken(Lower(t[..1]))
      && (|t| == 1 || exists n: nat :: n >= 1 && Lower(t[1..]) == Esses(n) + "please")
    ensures Match(OptionPlease, t).Some? ==> Match(OptionPlease, t).value == [t[..1]]
  {
    if t != [] && |t| > 1 {
      SPleaseIff(t[1..]);
    }
  }

  /** No whitespace at either end: what `^` and `$` around a pattern that starts and ends with a word demand. */
  predicate Bare(t: string)
  {
    t != [] && !IsSpace(t[0]) && !IsSpace(t[|t| - 1])
  }

  /** `s+please`, ignoring case, with at least one `s`. */
  predicate SPlease(rest: string)
  {
    |rest| >= 7 && Lower(rest[|rest| - 6..]) == "please"
    && forall k :: 0 <= k < |rest| - 6 ==> LowerChar(rest[k]) == 's'
  }

  /** `regex.exec(transcript)` for a table pattern: `None` when it fails, the captured groups when it succeeds. */
  function Match(p: Pattern, t: string): (r: Option<seq<string>>)
    ensures r.Some? ==> |r.value| == (if p.Phrase? then |GroupsOf(p.parts)| else 1)
  {
    match p
    case Phrase(parts) => if Bare(t) then MatchWords(SplitWs(t), parts) else None
    case OptionPlease =>
      if t != [] && IsOptionToken(Lower(t[..1])) && (|t| == 1 || SPlease(t[1..])) then Some([t[..1]]) else None
  }

  /** No entry of `table` in `lo..hi` matches the transcript. */
  predicate NoMatchBetween(table: Table, t: string, lo: nat, hi: nat)
    requires hi <= |table|
  {
    forall j :: lo <= j < hi ==> Match(table[j].0, t).None?
  }

  /** The first entry of `table` at or after `from` whose pattern matches, with its groups. */
  function FirstMatch(table: Table, t: string, from: nat): (r: Option<(nat, seq<string>)>)
    requires from <= |table|
    ensures r.Some? ==> from <= r.value.0 < |table| && Match(table[r.value.0].0, t) == Some(r.value.1)
    ensures r.Some? ==> NoMatchBetween(table, t, from, r.value.0)
    ensures r.None? <==> NoMatchBetween(table, t, from, |table|)
    decreases |table| - from
  {
    if from == |table| then None
    else match Match(table[from].0, t)
      case Some(groups) => Some((from, groups))
      case None => FirstMatch(table, t, from + 1)
  }

  /** Where `processVoiceCommand` sends a transcript in voice mode. */
  datatype Route =
    | DirectOption(token: string)
    | Command(entry: nat, handler: Handler, groups: seq<string>)
    | FallbackOption(token: string)
    | NotUnderstood

  /**
   * The dispatch order: a lone option token (after lower-casing and trimming), then the first
   * matching table entry on the transcript as given, then `option <token>` on the lower-cased,
   * trimmed transcript, and otherwise nothing.
   */
  function RouteOf(table: Table, t: string): Route
  {
    var lt := Trim(Lower(t));
    if IsOptionToken(lt) then DirectOption(lt)
    else match FirstMatch(table, t, 0)
      case Some((i, groups)) => Command(i, table[i].1, groups)
      case None =>
        match OptionWords(lt)
        case Some(token) => FallbackOption(token)
        case None => NotUnderstood
  }

  /** A lone option token, in any case and with any surrounding whitespace, is an option selection before anything else. */
  lemma RouteDirect(table: Table, t: string)
    ensures RouteOf(table, t).DirectOption? <==> IsOptionToken(Trim(Lower(t)))
    ensures RouteOf(table, t).DirectOption? ==> RouteOf(table, t).token == Trim(Lower(t))
  {
  }

  /** A command is the first table entry that matches, its handler and its groups, when no option token came first. */
  lemma RouteCommand(table: Table, t: string)
    requires RouteOf(table, t).Command?
    ensures !IsOptionToken(Trim(Lower(t)))
    ensures var r := RouteOf(table, t);
      && r.entry < |table| && r.handler == table[r.entry].1
      && Match(table[r.entry].0, t) == Some(r.groups)
      && NoMatchBetween(table, t, 0, r.entry)
  {
    RouteCases(table, t);
  }

  /** The three stages of `RouteOf`, one implication each. */
  lemma RouteCases(table: Table, t: string)
    ensures IsOptionToken(Trim(Lower(t))) ==> RouteOf(table, t).DirectOption?
    ensures var fm := FirstMatch(table, t, 0);
      !IsOptionToken(Trim(Lower(t))) && fm.Some? ==> RouteOf(table, t) == Command(fm.value.0, table[fm.value.0].1, fm.value.1)
    ensures !IsOptionToken(Trim(Lower(t))) && FirstMatch(table, t, 0).None? ==> !RouteOf(table, t).Command?
  {
  }

  /** Whenever no option token came first, any matching entry makes the transcript a command, of that entry or an earlier one. */
  lemma RouteTableFirst(table: Table, t: string, j: nat)
    requires j < |table| && Match(table[j].0, t).Some? && !IsOptionToken(Trim(Lower(t)))
    ensures RouteOf(table, t).Command? && RouteOf(table, t).entry <= j
  {
    assert !NoMatchBetween(table, t, 0, |table|);
    var fm := FirstMatch(table, t, 0);
    assert fm.Some? && fm.value.0 <= j;
    RouteCases(table, t);
  }

  /** The late `option <token>` reading applies only when no table entry matched. */
  lemma RouteFallback(table: Table, t: string)
    requires RouteOf(table, t).FallbackOption?
    ensures !IsOptionToken(Trim(Lower(t))) && NoMatchBetween(table, t, 0, |table|)
    ensures OptionWords(Trim(Lower(t))) == Some(RouteOf(table, t).token)
  {
  }

  /** A transcript is not understood exactly when no option token, no table entry and no `option <token>` matches. */
  lemma RouteNotUnderstood(table: Table, t: string)
    ensures RouteOf(table, t).NotUnderstood? <==>
      && !IsOptionToken(Trim(Lower(t)))
      && NoMatchBetween(table, t, 0, |table|)
      && OptionWords(Trim(Lower(t))).None?
  {
  }

  /** The hand-written `OptionWords` is the matcher applied to `OptionPhrase`. */
  lemma OptionWordsMatch(lt: string)
    ensures Match(OptionPhrase, lt) == (if OptionWords(lt).Some? then Some([OptionWords(lt).value]) else None)
  {
    if Bare(lt) {
      var ws := SplitWs(lt);
      var rest := [Group(OptionAlts)];
      assert OptionPhrase.parts == [Word("option")] + rest;
      if ws != [] && Lower(ws[0]) == "option" {
        var parts := OptionPhrase.parts;
        assert parts[0] == Word("option") && parts[1..] == rest && rest[0] == Group(OptionAlts) && rest[1..] == [];
        assert MatchWords(ws, parts) == MatchWords(ws[1..], rest);
        assert MatchWords(ws[1..], rest) == MatchAlts(ws[1..], OptionAlts, []);
        OptionAltsMatch(ws[1..]);
      }
    }
  }

  /** The option group followed by the end of the pattern accepts exactly one option token. */
  lemma OptionAltsMatch(ws: seq<string>)
    ensures MatchAlts(ws, OptionAlts, []) ==
      (if |ws| == 1 && IsOptionToken(Lower(ws[0])) then Some([ws[0]]) else None)
  {
    OptionAltsShape();
    SingleWordAlts(ws, OptionAlts);
    if ws != [] {
      OptionAltsTokens(Lower(ws[0]));
    }
  }

  /** A group of one-word alternatives at the end of a pattern accepts one word equal to one of them, ignoring case. */
  lemma {:induction false} SingleWordAlts(ws: seq<string>, alts: seq<seq<string>>)
    requires forall k :: 0 <= k < |alts| ==> |alts[k]| == 1
    ensures MatchAlts(ws, alts, []) == (if |ws| == 1 && [Lower(ws[0])] in alts then Some([ws[0]]) else None)
    decreases |alts|
  {
    if alts != [] {
      SingleWordAlts(ws, alts[1..]);
      if ws != [] {
        assert [Lower(ws[0])] in alts <==> [Lower(ws[0])] == alts[0] || [Lower(ws[0])] in alts[1..];
        assert StartsWithWords(ws, alts[0]) <==> [Lower(ws[0])] == alts[0];
        if StartsWithWords(ws, alts[0]) {
          var g := MatchWords(ws[1..], []);
          if |ws| == 1 {
            assert ws[..1] == [ws[0]] && ws[1..] == [];
            assert g == Some([]);
            assert Join(ws[..1], " ") == ws[0];
            assert MatchAlts(ws, alts, []) == Some([Join(ws[..|alts[0]|], " ")] + []);
            assert [ws[0]] + [] == [ws[0]];
          } else {
            assert ws[1..] != [];
            assert g == None;
          }
        }
      }
    }
  }

  lemma OptionAltsShape()
    ensures forall k :: 0 <= k < |OptionAlts| ==> |OptionAlts[k]| == 1
  {
  }

  /** The one-word alternatives of the option group are the option tokens. */
  lemma OptionAltsTokens(w: string)
    ensures [w] in OptionAlts <==> IsOptionToken(w)
  {
    if IsOptionToken(w) {
      assert w == [w[0]];
    }
  }

  /** `handleOptionSelect`'s mapping: a lone digit 1-4 becomes its letter, anything else is lower-cased. */
  function NormaliseOption(option: string): (r: string)
    ensures |option| == 1 && '1' <= option[0] <= '4' ==> r == [(option[0] as int - '1' as int + 'a' as int) as char]
    ensures !(|option| == 1 && '1' <= option[0] <= '4') ==> r == Lower(option)
  {
    if option == "1" then "a"
    else if option == "2" then "b"
    else if option == "3" then "c"
    else if option == "4" then "d"
    else Lower(option)
  }

  /** Every option token, upper or lower case, normalises to one of the four answer letters. */
  lemma NormaliseOptionLetters(option: string)
    requires IsOptionToken(Lower(option))
    ensures |NormaliseOption(option)| == 1 && 'a' <= NormaliseOption(option)[0] <= 'd'
  {
    assert |Lower(option)| == 1;
    assert Lower(option)[0] == LowerChar(option[0]);
  }

  /** The loop of `processVoiceCommand` over the table: the first entry whose pattern matches. */
  method FindCommand(table: Table, t: string) returns (found: Option<(nat, seq<string>)>)
    ensures found == FirstMatch(table, t, 0)
  {
    var i := 0;
    while i < |table|
      invariant 0 <= i <= |table|
      invariant FirstMatch(table, t, 0) == FirstMatch(table, t, i)
    {
      var m := Match(table[i].0, t);
      if m.Some? {
        return Some((i, m.value));
      }
      i := i + 1;
    }
    return None;
  }

  // ---------------------------------------------------------------------------------------------
  // What the handlers say and report
  // ---------------------------------------------------------------------------------------------

  /** One observable effect: an utterance handed to speech synthesis, or a call of the result callback. */
  datatype Output = Spoke(text: string) | Called(value: string, kind: string)

  /** What the handlers consult: whether speech and a callback exist, and the question being read. */
  datatype Context = Context(synthesis: bool, callback: bool, question: string, options: seq<string>)

  /** `speak(text)`: heard only where speech synthesis exists. */
  function Say(ctx: Context, text: string): seq<Output>
  {
    if ctx.synthesis then [Spoke(text)] else []
  }

  /** `onResultCallback(value, kind)`: made only when a callback is set. */
  function Report(ctx: Context, value: string, kind: string): seq<Output>
  {
    if ctx.callback then [Called(value, kind)] else []
  }

  const NotUnderstoodText := "I didn't understand that command. Say 'help' for a list of available commands."

  /** `handleHelp`'s utterance: the introduction followed by the seven command hints joined with `. `. */
  const HelpText: string :=
    "Here are the available commands: Say 'A', 'B', 'C', or 'D' to answer. "
    + "'Next question' to move to the next question. 'Repeat question' to hear the question again. "
    + "'Show leaderboard' to see scores. 'Restart quiz' to start over. 'Help' to hear these options again. "
    + "'Toggle voice mode' to turn voice commands on or off"

  /**
   * `String.fromCharCode(65 + i)`. Past U+D7FF the result would be a surrogate or wrap around,
   * which a Dafny string cannot hold; a question has far fewer options than that.
   */
  function OptionLabel(i: nat): string
  {
    if 65 + i < 0xD800 then [(65 + i) as char] else "?"
  }

  /** The `Option X: text` entries read out for the options from position `i` on. */
  function OptionEntries(options: seq<string>, i: nat): (r: seq<string>)
    ensures |r| == |options|
    ensures forall k :: 0 <= k < |options| ==> r[k] == "Option " + OptionLabel(i + k) + ": " + options[k]
    decreases |options|
  {
    if options == [] then []
    else
      var rest := OptionEntries(options[1..], i + 1);
      assert forall k :: 1 <= k < |options| ==> rest[k - 1] == "Option " + OptionLabel(i + k) + ": " + options[k];
      ["Option " + OptionLabel(i) + ": " + options[0]] + rest
  }

  /** `handleRepeatQuestion`'s utterances. */
  function RepeatReply(ctx: Context): seq<Output>
  {
    if ctx.question != "" then
      Say(ctx, "Question: " + ctx.question)
        + (if ctx.options != [] then Say(ctx, "Options are: " + Join(OptionEntries(ctx.options, 0), ". ")) else [])
    else Say(ctx, "I don't have a question to repeat right now.")
  }

  /** `handleOptionSelect(option)`'s callback call, if any. */
  function OptionReply(ctx: Context, option: string): seq<Output>
  {
    if option == "" then [] else Report(ctx, NormaliseOption(option), "answer")
  }

  /** The effects of running a handler with the captured groups, in voice mode. */
  function HandlerReply(ctx: Context, h: Handler, groups: seq<string>): seq<Output>
  {
    match h
    case NextQuestion => Say(ctx, "Moving to the next question.") + Report(ctx, "next", "command")
    case RepeatQuestion => RepeatReply(ctx)
    case ShowLeaderboard => Say(ctx, "Showing leaderboard.") + Report(ctx, "leaderboard", "command")
    case RestartQuiz => Say(ctx, "Restarting the quiz.") + Report(ctx, "restart", "command")
    case OptionSelect => OptionReply(ctx, if groups == [] then "" else groups[0])
    case Help => Say(ctx, HelpText)
    case ToggleVoice => Say(ctx, "Voice mode deactivated.")
  }

  /** The effects of a transcript routed in voice mode. */
  function Reaction(ctx: Context, route: Route): seq<Output>
  {
    match route
    case DirectOption(token) => OptionReply(ctx, token)
    case Command(_, h, groups) => HandlerReply(ctx, h, groups)
    case FallbackOption(token) => OptionReply(ctx, token)
    case NotUnderstood => Say(ctx, NotUnderstoodText)
  }

  /** What `processVoiceCommand` returns for a route in voice mode. */
  predicate Handled(route: Route)
  {
    match route
    case NotUnderstood => false
    case Command(_, OptionSelect, groups) => groups != [] && groups[0] != ""
    case DirectOption(token) => token != ""
    case FallbackOption(token) => token != ""
    case _ => true
  }

  /** The route leads to `toggleVoiceMode`. */
  predicate Toggles(route: Route)
  {
    route.Command? && route.handler == ToggleVoice
  }

  // ---------------------------------------------------------------------------------------------
  // Feedback after an answer
  // ---------------------------------------------------------------------------------------------

  const PraisePhrases: seq<string> :=
    ["Nice job!", "Well done!", "You're on fire!", "That's correct!", "Great answer!", "Perfect!"]

  function StreakPhrases(n: nat): seq<string>
  {
    [ "Amazing! That's " + NatToString(n) + " in a row!",
      "You're unstoppable! " + NatToString(n) + " correct answers!",
      "Incredible! " + NatToString(n) + " right in a row!" ]
  }

  function CorrectionPhrases(answer: string): seq<string>
  {
    [ "Oops, that's not it. The correct answer is " + answer + ".",
      "Not quite. The right answer is " + answer + ".",
      "That's not it. The correct answer is " + answer + ".",
      "Good try, but the correct answer is " + answer + "." ]
  }

  const EncouragingPhrases: seq<string> :=
    ["Don't worry, you'll get the next one!", "Keep trying, you're learning!", "Every mistake is a learning opportunity!"]

  /** A correction with the explanation appended when there is one. */
  function Correction(answer: string, explanation: string, pick: nat): string
    requires pick < 4
  {
    CorrectionPhrases(answer)[pick] + (if explanation != "" then " Here's why: " + explanation else "")
  }

  /**
   * The random draws of `provideFeedback`: the phrase index for the pool in use and, after a
   * second wrong answer in a row, the encouraging phrase drawn for that phrase.
   */
  predicate FeedbackDraws(isCorrect: bool, streak: nat, pick: nat, encourage: nat)
  {
    if isCorrect then pick < (if streak >= 3 then 3 else 6) else pick < 4 && encourage < 3
  }

  /** The utterance of `provideFeedback`, given the streak counts after the answer. */
  function FeedbackText(isCorrect: bool, correctStreak: nat, incorrectStreak: nat, answer: string, explanation: string,
                        pick: nat, encourage: nat): string
    requires FeedbackDraws(isCorrect, if isCorrect then correctStreak else incorrectStreak, pick, encourage)
  {
    if isCorrect then
      if correctStreak >= 3 then StreakPhrases(correctStreak)[pick] else PraisePhrases[pick]
    else
      Correction(answer, explanation, pick) + (if incorrectStreak >= 2 then " " + EncouragingPhrases[encourage] else "")
  }

  /** After a correct answer the streak pool is used exactly from the third correct answer in a row. */
  lemma StreakPoolIff(correctStreak: nat, incorrectStreak: nat, answer: string, explanation: string, pick: nat, encourage: nat)
    requires FeedbackDraws(true, correctStreak, pick, encourage)
    ensures FeedbackText(true, correctStreak, incorrectStreak, answer, explanation, pick, encourage) in StreakPhrases(correctStreak)
        <==> correctStreak >= 3
    ensures correctStreak < 3 ==>
      FeedbackText(true, correctStreak, incorrectStreak, answer, explanation, pick, encourage) in PraisePhrases
  {
    if correctStreak < 3 {
      PraiseNotStreak(correctStreak);
    }
  }

  /** Praise phrases are shorter than any streak phrase. */
  lemma PraiseNotStreak(n: nat)
    ensures forall p :: p in PraisePhrases ==> p !in StreakPhrases(n)
  {
    var d := NatToString(n);
    assert forall p :: p in PraisePhrases ==> |p| <= 15;
    assert forall p :: p in StreakPhrases(n) ==> |p| >= 16 + |d|;
  }

  /** After a wrong answer an encouraging phrase is appended exactly from the second wrong answer in a row. */
  lemma EncouragementIff(correctStreak: nat, incorrectStreak: nat, answer: string, explanation: string, pick: nat, encourage: nat)
    requires FeedbackDraws(false, incorrectStreak, pick, encourage)
    ensures var text := FeedbackText(false, correctStreak, incorrectStreak, answer, explanation, pick, encourage);
      incorrectStreak >= 2 <==>
      exists e :: e in EncouragingPhrases && text == Correction(answer, explanation, pick) + " " + e
  {
    var text := FeedbackText(false, correctStreak, incorrectStreak, answer, explanation, pick, encourage);
    var base := Correction(answer, explanation, pick);
    if incorrectStreak >= 2 {
      assert EncouragingPhrases[encourage] in EncouragingPhrases;
    } else {
      assert text == base;
      forall e | e in EncouragingPhrases ensures text != base + " " + e {
        assert |base + " " + e| > |base|;
      }
    }
  }

  // ---------------------------------------------------------------------------------------------
  // The controller
  // ---------------------------------------------------------------------------------------------

  /**
   * `VoiceController`. Speech recognition and synthesis are reduced to whether the browser
   * offers them; what the controller says and reports goes to `log` in order.
   */
  class VoiceController {
    const recognitionAvailable: bool
    const synthesisAvailable: bool
    const commands: Table
    var isListening: bool
    var isVoiceMode: bool
    var hasResultCallback: bool
    var currentQuestion: string
    var currentOptions: seq<string>
    var correctStreak: nat
    var incorrectStreak: nat
    var log: seq<Output>

    /** Only a recognizer can be listening, and at most one of the streaks is running. */
    predicate Valid()
      reads this
    {
      (isListening ==> recognitionAvailable) && (correctStreak == 0 || incorrectStreak == 0)
    }

    function Ctx(): Context
      reads this
    {
      Context(synthesisAvailable, hasResultCallback, currentQuestion, currentOptions)
    }

    constructor (recognition: bool, synthesis: bool)
      ensures Valid() && recognitionAvailable == recognition && synthesisAvailable == synthesis
      ensures commands == DefaultCommands
      ensures !isListening && !isVoiceMode && !hasResultCallback
      ensures currentQuestion == "" && currentOptions == [] && correctStreak == 0 && incorrectStreak == 0 && log == []
    {
      recognitionAvailable := recognition;
      synthesisAvailable := synthesis;
      commands := DefaultCommands;
      isListening := false;
      isVoiceMode := false;
      hasResultCallback := false;
      currentQuestion := "";
      currentOptions := [];
      correctStreak := 0;
      incorrectStreak := 0;
      log := [];
    }

    /** `speak`: the utterance is heard only where speech synthesis exists. */
    method Speak(text: string) returns (spoken: bool)
      modifies this`log
      ensures spoken == synthesisAvailable && log == old(log) + Say(Ctx(), text)
    {
      if !synthesisAvailable {
        return false;
      }
      log := log + [Spoke(text)];
      return true;
    }

    /** `onResultCallback(value, kind)` when a callback is set. */
    method Notify(value: string, kind: string)
      modifies this`log
      ensures log == old(log) + Report(Ctx(), value, kind)
    {
      if hasResultCallback {
        log := log + [Called(value, kind)];
      }
    }

    /**
     * `startListening`: refused without a recognizer; otherwise restarts listening.
     * `startSucceeds` says whether `recognition.start()` returns normally; when it throws,
     * the error is caught, the controller is left not listening and false is returned.
     */
    method StartListening(startSucceeds: bool) returns (started: bool)
      requires Valid()
      modifies this`isListening
      ensures Valid() && started == (recognitionAvailable && startSucceeds) && isListening == started
    {
      if !recognitionAvailable {
        return false;
      }
      if isListening {
        StopListening();
      }
      if !startSucceeds {
        isListening := false;
        return false;
      }
      isListening := true;
      return true;
    }

    /** `stopListening`: acts only while listening, and leaves the controller not listening. */
    method StopListening()
      requires Valid()
      modifies this`isListening
      ensures Valid() && !isListening
    {
      if recognitionAvailable && isListening {
        isListening := false;
      }
    }

    method SetOnResultCallback(present: bool)
      modifies this`hasResultCallback
      ensures hasResultCallback == present
    {
      hasResultCallback := present;
    }

    method SetCurrentQuestion(question: string, options: seq<string>)
      modifies this`currentQuestion, this`currentOptions
      ensures currentQuestion == question && currentOptions == options
    {
      currentQuestion := question;
      currentOptions := options;
    }

    /**
     * `toggleVoiceMode`: flip the mode, announce it, and start or stop listening to match;
     * `startSucceeds` is passed to `StartListening` when the mode turns on.
     */
    method ToggleVoiceMode(startSucceeds: bool) returns (mode: bool)
      requires Valid()
      modifies this`isVoiceMode, this`isListening, this`log
      ensures Valid() && mode == isVoiceMode == !old(isVoiceMode)
      ensures isListening == (isVoiceMode && recognitionAvailable && startSucceeds)
      ensures log == old(log) + Say(Ctx(), if isVoiceMode then "Voice mode activated. You can now use voice commands." else "Voice mode deactivated.")
    {
      isVoiceMode := !isVoiceMode;
      if isVoiceMode {
        var _ := Speak("Voice mode activated. You can now use voice commands.");
        var _ := StartListening(startSucceeds);
      } else {
        var _ := Speak("Voice mode deactivated.");
        StopListening();
      }
      return isVoiceMode;
    }

    /** `handleOptionSelect`: report the normalised option as an answer; an empty option is refused. */
    method HandleOptionSelect(option: string) returns (handled: bool)
      modifies this`log
      ensures handled == (option != "") && log == old(log) + OptionReply(Ctx(), option)
    {
      if option == "" {
        return false;
      }
      Notify(NormaliseOption(option), "answer");
      return true;
    }

    /** The `repeat question` handler: the question and its numbered options, or an apology. */
    method RepeatQuestion()
      modifies this`log
      ensures log == old(log) + RepeatReply(Ctx())
    {
      if currentQuestion != "" {
        var _ := Speak("Question: " + currentQuestion);
        if currentOptions != [] {
          var _ := Speak("Options are: " + Join(OptionEntries(currentOptions, 0), ". "));
        }
      } else {
        var _ := Speak("I don't have a question to repeat right now.");
      }
    }

    /** Run the handler of a matched table entry with its captured groups. */
    method RunHandler(h: Handler, groups: seq<string>) returns (handled: bool)
      requires Valid() && isVoiceMode
      modifies this`log, this`isVoiceMode, this`isListening
      ensures Valid()
      ensures handled == (h != OptionSelect || (groups != [] && groups[0] != ""))
      ensures log == old(log) + HandlerReply(old(Ctx()), h, groups)
      ensures isVoiceMode == (h != ToggleVoice) && isListening == (old(isListening) && h != ToggleVoice)
    {
      match h
      case NextQuestion =>
        var _ := Speak("Moving to the next question.");
        Notify("next", "command");
        handled := true;
      case RepeatQuestion =>
        RepeatQuestion();
        handled := true;
      case ShowLeaderboard =>
        var _ := Speak("Showing leaderboard.");
        Notify("leaderboard", "command");
        handled := true;
      case RestartQuiz =>
        var _ := Speak("Restarting the quiz.");
        Notify("restart", "command");
        handled := true;
      case OptionSelect =>
        handled := HandleOptionSelect(if groups == [] then "" else groups[0]);
      case Help =>
        var _ := Speak(HelpText);
        handled := true;
      case ToggleVoice =>
        // voice mode is on here, so the toggle turns it off and does not start listening
        var _ := ToggleVoiceMode(false);
        handled := true;
    }

    /**
     * `processVoiceCommand`: outside voice mode nothing happens; in voice mode the transcript
     * is routed as `RouteOf` says and the chosen handler's effects are appended to the log.
     */
    method ProcessVoiceCommand(transcript: string) returns (handled: bool)
      requires Valid()
      modifies this`log, this`isVoiceMode, this`isListening
      ensures Valid()
      ensures !old(isVoiceMode) ==> !handled && log == old(log) && !isVoiceMode && isListening == old(isListening)
      ensures old(isVoiceMode) ==>
        && handled == Handled(RouteOf(commands, transcript))
        && log == old(log) + Reaction(old(Ctx()), RouteOf(commands, transcript))
        && isVoiceMode == !Toggles(RouteOf(commands, transcript))
        && isListening == (old(isListening) && !Toggles(RouteOf(commands, transcript)))
    {
      if !isVoiceMode {
        return false;
      }
      var route := ChooseRoute(transcript);
      handled := Perform(route);
    }

    /**
     * The decisions of `processVoiceCommand`, which change nothing: a lone option token first,
     * then the table in order, then `option <token>` on the lower-cased, trimmed transcript.
     */
    method ChooseRoute(transcript: string) returns (route: Route)
      ensures route == RouteOf(commands, transcript)
    {
      var lowered := Trim(Lower(transcript));
      if IsOptionToken(lowered) {
        return DirectOption(lowered);
      }
      var found := FindCommand(commands, transcript);
      if found.Some? {
        return Command(found.value.0, commands[found.value.0].1, found.value.1);
      }
      var fallback := OptionWords(lowered);
      if fallback.Some? {
        return FallbackOption(fallback.value);
      }
      return NotUnderstood;
    }

    /** The effects of `processVoiceCommand` once the route is chosen: the handler it names runs. */
    method Perform(route: Route) returns (handled: bool)
      requires Valid() && isVoiceMode
      modifies this`log, this`isVoiceMode, this`isListening
      ensures Valid()
      ensures handled == Handled(route) && log == old(log) + Reaction(old(Ctx()), route)
      ensures isVoiceMode == !Toggles(route) && isListening == (old(isListening) && !Toggles(route))
    {
      match route
      case DirectOption(token) =>
        handled := HandleOptionSelect(token);
      case Command(_, h, groups) =>
        handled := RunHandler(h, groups);
      case FallbackOption(token) =>
        handled := HandleOptionSelect(token);
      case NotUnderstood =>
        var _ := Speak(NotUnderstoodText);
        handled := false;
    }

    /**
     * `provideFeedback`: a correct answer extends the correct streak and ends the wrong one, a
     * wrong answer the reverse; the utterance comes from the pool the new streak selects.
     */
    method ProvideFeedback(isCorrect: bool, answer: string, explanation: string, pick: nat, encourage: nat)
      requires Valid()
      requires FeedbackDraws(isCorrect, if isCorrect then correctStreak + 1 else incorrectStreak + 1, pick, encourage)
      modifies this`correctStreak, this`incorrectStreak, this`log
      ensures Valid()
      ensures isCorrect ==> correctStreak == old(correctStreak) + 1 && incorrectStreak == 0
      ensures !isCorrect ==> incorrectStreak == old(incorrectStreak) + 1 && correctStreak == 0
      ensures log == old(log) + Say(Ctx(), FeedbackText(isCorrect, correctStreak, incorrectStreak, answer, explanation, pick, encourage))
    {
      if isCorrect {
        correctStreak := correctStreak + 1;
        incorrectStreak := 0;
      } else {
        incorrectStreak := incorrectStreak + 1;
        correctStreak := 0;
      }
      var _ := Speak(FeedbackText(isCorrect, correctStreak, incorrectStreak, answer, explanation, pick, encourage));
    }
  }
}
