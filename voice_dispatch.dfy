/**
 * Worked dispatches through the default command table: for whole families of transcripts
 * (any letter case, any one of a group's alternatives) the route `processVoiceCommand` takes.
 */
module VoiceDispatch {
  import opened Wrappers
  import opened Text
  import opened VoiceCommands

  /** Lower-casing keeps whitespace where it is. */
  lemma LowerKeepsSpaces(s: string)
    ensures |Lower(s)| == |s|
    ensures forall k :: 0 <= k < |s| ==> (IsSpace(Lower(s)[k]) <==> IsSpace(s[k]))
  {
  }

  /** Two words joined by one space: no edge whitespace, those two words, and no lone option token. */
  lemma TwoWords(w1: string, w2: string)
    requires NoSpace(w1) && NoSpace(w2) && w1 != [] && w2 != []
    ensures Bare(w1 + " " + w2) && SplitWs(w1 + " " + w2) == [w1, w2]
    ensures !IsOptionToken(Trim(Lower(w1 + " " + w2)))
  {
    var t := w1 + " " + w2;
    SplitWsTwo(w1, w2);
    assert t[0] == w1[0] && t[|t| - 1] == w2[|w2| - 1];
    LowerKeepsSpaces(t);
    TrimUnchanged(Lower(t));
  }

  /** The route of a transcript whose first matching entry is known. */
  lemma RouteAt(table: Table, t: string, j: nat, h: Handler, groups: seq<string>)
    requires j < |table| && table[j].1 == h && !IsOptionToken(Trim(Lower(t)))
    requires NoMatchBetween(table, t, 0, j) && Match(table[j].0, t) == Some(groups)
    ensures RouteOf(table, t) == Command(j, h, groups)
  {
    RouteTableFirst(table, t, j);
    RouteCommand(table, t);
  }

  /** The entries of the default table, one by one. */
  lemma DefaultEntries()
    ensures |DefaultCommands| == 10
    ensures DefaultCommands[0] == (NextPattern, NextQuestion) && DefaultCommands[2] == (ShowPattern, ShowLeaderboard)
    ensures DefaultCommands[4] == (ReadAgainPattern, RepeatQuestion) && DefaultCommands[5] == (OptionPhrase, OptionSelect)
    ensures DefaultCommands[6] == (OptionPlease, OptionSelect) && DefaultCommands[7] == (SelectPattern, OptionSelect)
  {
  }

  /**
   * "next question" or "next one", in any letter case, moves to the next question through the
   * first entry: it announces the move and reports the `next` command.
   */
  lemma NextQuestionRoute(w1: string, w2: string, ctx: Context)
    requires NoSpace(w1) && NoSpace(w2) && w2 != []
    requires Lower(w1) == "next" && (Lower(w2) == "question" || Lower(w2) == "one")
    ensures RouteOf(DefaultCommands, w1 + " " + w2) == Command(0, NextQuestion, [w2])
    ensures Reaction(ctx, RouteOf(DefaultCommands, w1 + " " + w2))
      == Say(ctx, "Moving to the next question.") + Report(ctx, "next", "command")
  {
    NextQuestionCommand(w1, w2);
    NextReaction(ctx, RouteOf(DefaultCommands, w1 + " " + w2));
  }

  lemma NextQuestionCommand(w1: string, w2: string)
    requires NoSpace(w1) && NoSpace(w2) && w2 != []
    requires Lower(w1) == "next" && (Lower(w2) == "question" || Lower(w2) == "one")
    ensures RouteOf(DefaultCommands, w1 + " " + w2) == Command(0, NextQuestion, [w2])
  {
    TwoWords(w1, w2);
    NextQuestionMatch(w1, w2);
    DefaultEntries();
    RouteAt(DefaultCommands, w1 + " " + w2, 0, NextQuestion, [w2]);
  }

  /** A word followed by a group of one-word alternatives matches two words, capturing the second. */
  lemma WordThenAlt(w1: string, w2: string, word: string, alts: seq<seq<string>>)
    requires forall k :: 0 <= k < |alts| ==> |alts[k]| == 1
    requires Lower(w1) == word && [Lower(w2)] in alts
    ensures MatchWords([w1, w2], [Word(word), Group(alts)]) == Some([w2])
  {
    SingleWordAlts([w2], alts);
    assert [w1, w2][1..] == [w2];
    assert [Word(word), Group(alts)][1..] == [Group(alts)];
    assert MatchWords([w1, w2], [Word(word), Group(alts)]) == MatchWords([w2], [Group(alts)]);
    assert [Group(alts)][1..] == [];
    assert MatchWords([w2], [Group(alts)]) == MatchAlts([w2], alts, []);
  }

  /** The same at the level of a whole transcript. */
  lemma WordThenAltMatch(t: string, w1: string, w2: string, word: string, alts: seq<seq<string>>)
    requires Bare(t) && SplitWs(t) == [w1, w2]
    requires forall k :: 0 <= k < |alts| ==> |alts[k]| == 1
    requires Lower(w1) == word && [Lower(w2)] in alts
    ensures Match(Phrase([Word(word), Group(alts)]), t) == Some([w2])
  {
    WordThenAlt(w1, w2, word, alts);
  }

  lemma NextQuestionMatch(w1: string, w2: string)
    requires Bare(w1 + " " + w2) && SplitWs(w1 + " " + w2) == [w1, w2]
    requires Lower(w1) == "next" && (Lower(w2) == "question" || Lower(w2) == "one")
    ensures Match(NextPattern, w1 + " " + w2) == Some([w2])
  {
    assert [Lower(w2)] in NextQuestionAlts;
    WordThenAltMatch(w1 + " " + w2, w1, w2, "next", NextQuestionAlts);
  }

  /** A pattern that starts with a word fails on words that start differently. */
  lemma WordMisses(ws: seq<string>, word: string, rest: seq<Part>)
    requires ws != [] && Lower(ws[0]) != word
    ensures MatchWords(ws, [Word(word)] + rest) == None
  {
    assert ([Word(word)] + rest)[0] == Word(word);
  }

  /** A group fails when none of its alternatives starts with the first word. */
  lemma {:induction false} GroupMisses(ws: seq<string>, alts: seq<seq<string>>, rest: seq<Part>)
    requires ws != [] && forall k :: 0 <= k < |alts| ==> alts[k] != [] && alts[k][0] != Lower(ws[0])
    ensures MatchAlts(ws, alts, rest) == None
    decreases |alts|
  {
    if alts != [] {
      assert !StartsWithWords(ws, alts[0]);
      GroupMisses(ws, alts[1..], rest);
    }
  }

  /** A pattern that starts with a group fails on words that start differently. */
  lemma GroupFirstMisses(ws: seq<string>, alts: seq<seq<string>>, rest: seq<Part>)
    requires ws != [] && forall k :: 0 <= k < |alts| ==> alts[k] != [] && alts[k][0] != Lower(ws[0])
    ensures MatchWords(ws, [Group(alts)] + rest) == None
  {
    assert ([Group(alts)] + rest)[0] == Group(alts) && ([Group(alts)] + rest)[1..] == rest;
    GroupMisses(ws, alts, rest);
  }

  /** The first five entries all fail on words that start with none of `next`, `repeat`, `show`, `restart`, `start`, `read` and `say`. */
  lemma FirstFiveMiss(t: string, ws: seq<string>)
    requires Bare(t) && SplitWs(t) == ws && ws != []
    requires Lower(ws[0]) !in {"next", "repeat", "show", "restart", "start", "read", "say"}
    ensures NoMatchBetween(DefaultCommands, t, 0, 5)
  {
    forall j | 0 <= j < 5
      ensures Match(DefaultCommands[j].0, t).None?
    {
      EntryMisses(t, ws, j);
    }
  }

  lemma EntryMisses(t: string, ws: seq<string>, j: nat)
    requires Bare(t) && SplitWs(t) == ws && ws != [] && j < 5
    requires Lower(ws[0]) !in {"next", "repeat", "show", "restart", "start", "read", "say"}
    ensures Match(DefaultCommands[j].0, t).None?
  {
    if j < 3 {
      WordEntryMisses(ws, j);
    } else {
      GroupEntryMisses(ws, j);
    }
  }

  lemma WordEntryMisses(ws: seq<string>, j: nat)
    requires ws != [] && j < 3 && Lower(ws[0]) != ["next", "repeat", "show"][j]
    ensures DefaultCommands[j].0.Phrase? && MatchWords(ws, DefaultCommands[j].0.parts).None?
  {
    if j == 0 {
      WordMisses(ws, "next", [Group(NextQuestionAlts)]);
    } else if j == 1 {
      WordMisses(ws, "repeat", [Group(QuestionThatAlts)]);
    } else {
      WordMisses(ws, "show", [Group(LeaderboardAlts)]);
    }
  }

  lemma GroupEntryMisses(ws: seq<string>, j: nat)
    requires ws != [] && 3 <= j < 5
    requires j == 3 ==> Lower(ws[0]) != "restart" && Lower(ws[0]) != "start"
    requires j == 4 ==> Lower(ws[0]) != "read" && Lower(ws[0]) != "say"
    ensures DefaultCommands[j].0.Phrase? && MatchWords(ws, DefaultCommands[j].0.parts).None?
  {
    if j == 3 {
      GroupFirstMisses(ws, RestartAlts, [Group(QuizGameAlts)]);
    } else {
      GroupFirstMisses(ws, ReadSayAlts, [Group(QuestionThatAlts), Group(AgainAlts)]);
    }
  }


  /** The `option please` entry needs an option token as the very first character. */
  lemma OptionPleaseMisses(t: string)
    requires t != [] && !IsOptionToken([LowerChar(t[0])])
    ensures Match(OptionPlease, t) == None
  {
    assert Lower(t[..1]) == [LowerChar(t[0])];
  }

  /** The option group matches a single option token in any letter case. */
  lemma OptionTokenMatches(t: string, w1: string, w2: string, word: string)
    requires Bare(t) && SplitWs(t) == [w1, w2]
    requires Lower(w1) == word && IsOptionToken(Lower(w2))
    ensures Match(Phrase([Word(word), Group(OptionAlts)]), t) == Some([w2])
  {
    OptionAltsShape();
    OptionAltsTokens(Lower(w2));
    WordThenAltMatch(t, w1, w2, word, OptionAlts);
  }

  /**
   * "select" and an option token, in any letter case, reaches the `select` entry and reports
   * the normalised answer letter.
   */
  lemma SelectRoute(w1: string, w2: string, ctx: Context)
    requires NoSpace(w1) && NoSpace(w2) && w2 != []
    requires Lower(w1) == "select" && IsOptionToken(Lower(w2))
    ensures RouteOf(DefaultCommands, w1 + " " + w2) == Command(7, OptionSelect, [w2])
    ensures Reaction(ctx, RouteOf(DefaultCommands, w1 + " " + w2)) == Report(ctx, NormaliseOption(w2), "answer")
  {
    SelectCommand(w1, w2);
    SelectReaction(ctx, RouteOf(DefaultCommands, w1 + " " + w2), w2);
  }

  lemma SelectCommand(w1: string, w2: string)
    requires NoSpace(w1) && NoSpace(w2) && w2 != []
    requires Lower(w1) == "select" && IsOptionToken(Lower(w2))
    ensures RouteOf(DefaultCommands, w1 + " " + w2) == Command(7, OptionSelect, [w2])
  {
    var t := w1 + " " + w2;
    TwoWords(w1, w2);
    SelectMissesBefore(w1, w2);
    SelectMatch(w1, w2);
    DefaultEntries();
    RouteAt(DefaultCommands, t, 7, OptionSelect, [w2]);
  }

  lemma SelectMatch(w1: string, w2: string)
    requires Bare(w1 + " " + w2) && SplitWs(w1 + " " + w2) == [w1, w2]
    requires Lower(w1) == "select" && IsOptionToken(Lower(w2))
    ensures Match(SelectPattern, w1 + " " + w2) == Some([w2])
  {
    OptionTokenMatches(w1 + " " + w2, w1, w2, "select");
  }

  /** An option-select command with a captured token reports that token, normalised, as the answer. */
  lemma SelectReaction(ctx: Context, route: Route, g: string)
    requires g != "" && route.Command? && route.handler == OptionSelect && route.groups == [g]
    ensures Reaction(ctx, route) == Report(ctx, NormaliseOption(g), "answer")
  {
    assert HandlerReply(ctx, OptionSelect, [g]) == OptionReply(ctx, g);
  }

  lemma SelectMissesBefore(w1: string, w2: string)
    requires Bare(w1 + " " + w2) && SplitWs(w1 + " " + w2) == [w1, w2]
    requires Lower(w1) == "select"
    ensures NoMatchBetween(DefaultCommands, w1 + " " + w2, 0, 7)
  {
    var t := w1 + " " + w2;
    var ws := [w1, w2];
    FirstFiveMiss(t, ws);
    WordMisses(ws, "option", [Group(OptionAlts)]);
    assert t[0] == w1[0] && Lower(w1)[0] == LowerChar(w1[0]);
    OptionPleaseMisses(t);
  }

  /**
   * The table's `option please` entry reads `s+please` after the token, since the pattern is
   * written in a string literal where `\s` is just `s`: "bsplease" or "Cssplease" selects an option.
   */
  lemma SPleaseRoute(t: string)
    requires NoSpace(t) && t != [] && IsOptionToken(Lower(t[..1])) && SPlease(t[1..])
    ensures RouteOf(DefaultCommands, t) == Command(6, OptionSelect, [t[..1]])
  {
    SPleaseFacts(t);
    DefaultEntries();
    RouteAt(DefaultCommands, t, 6, OptionSelect, [t[..1]]);
  }

  lemma SPleaseFacts(t: string)
    requires NoSpace(t) && t != [] && IsOptionToken(Lower(t[..1])) && SPlease(t[1..])
    ensures !IsOptionToken(Trim(Lower(t)))
    ensures NoMatchBetween(DefaultCommands, t, 0, 6) && Match(OptionPlease, t) == Some([t[..1]])
  {
    SPleaseMissesBefore(t);
    SPleaseMatch(t);
  }

  lemma SPleaseMatch(t: string)
    requires t != [] && IsOptionToken(Lower(t[..1])) && SPlease(t[1..])
    ensures Match(OptionPlease, t) == Some([t[..1]])
  {
  }

  lemma SPleaseMissesBefore(t: string)
    requires NoSpace(t) && |t| >= 8
    ensures !IsOptionToken(Trim(Lower(t)))
    ensures NoMatchBetween(DefaultCommands, t, 0, 6)
  {
    LowerKeepsSpaces(t);
    TrimUnchanged(Lower(t));
    SplitWsSingle(t);
    FirstFiveMiss(t, [t]);
    WordMisses([t], "option", [Group(OptionAlts)]);
  }

  /** An option token followed by a space and `please` is therefore not understood at all. */
  lemma TokenPleaseNotUnderstood(w1: string, w2: string)
    requires IsOptionToken(Lower(w1)) && NoSpace(w2) && Lower(w2) == "please"
    ensures RouteOf(DefaultCommands, w1 + " " + w2) == NotUnderstood
  {
    var t := w1 + " " + w2;
    assert Lower(w1)[0] == LowerChar(w1[0]);
    TwoWords(w1, w2);
    TokenPleaseMisses(w1, w2);
    OptionWordsTokenFirst(w1, w2);
    RouteNotUnderstood(DefaultCommands, t);
  }

  lemma TokenPleaseMisses(w1: string, w2: string)
    requires Bare(w1 + " " + w2) && SplitWs(w1 + " " + w2) == [w1, w2]
    requires IsOptionToken(Lower(w1)) && Lower(w2) == "please"
    ensures NoMatchBetween(DefaultCommands, w1 + " " + w2, 0, |DefaultCommands|)
  {
    var t := w1 + " " + w2;
    var ws := [w1, w2];
    FirstFiveMiss(t, ws);
    forall j | 5 <= j < |DefaultCommands|
      ensures Match(DefaultCommands[j].0, t).None?
    {
      LaterEntryMisses(w1, w2, j);
    }
  }

  lemma LaterEntryMisses(w1: string, w2: string, j: nat)
    requires Bare(w1 + " " + w2) && SplitWs(w1 + " " + w2) == [w1, w2]
    requires IsOptionToken(Lower(w1)) && Lower(w2) == "please"
    requires 5 <= j < |DefaultCommands|
    ensures Match(DefaultCommands[j].0, w1 + " " + w2).None?
  {
    if j == 6 {
      assert |w1| == |Lower(w1)| == 1;
      SpaceBeforePlease(w1 + " " + w2);
    } else {
      LaterWordEntryMisses([w1, w2], j);
    }
  }

  /** The `option please` entry fails once a space follows the token. */
  lemma SpaceBeforePlease(t: string)
    requires |t| > 1 && t[1] == ' '
    ensures Match(OptionPlease, t) == None
  {
    assert t[1..][0] == ' ' && LowerChar(' ') != 's';
  }

  lemma LaterWordEntryMisses(ws: seq<string>, j: nat)
    requires ws != [] && |Lower(ws[0])| == 1
    requires 5 <= j < |DefaultCommands| && j != 6
    ensures DefaultCommands[j].0.Phrase? && MatchWords(ws, DefaultCommands[j].0.parts).None?
  {
    if j == 5 {
      WordMisses(ws, "option", [Group(OptionAlts)]);
    } else if j == 7 {
      WordMisses(ws, "select", [Group(OptionAlts)]);
    } else if j == 8 {
      WordMisses(ws, "help", []);
    } else {
      WordMisses(ws, "toggle", [Word("voice"), Word("mode")]);
    }
  }

  /** A transcript whose first word is a single character is never `option <token>`. */
  lemma OptionWordsTokenFirst(w1: string, w2: string)
    requires NoSpace(w1) && NoSpace(w2) && w2 != [] && |w1| == 1
    ensures OptionWords(Trim(Lower(w1 + " " + w2))) == None
  {
    LoweredWords(w1, w2);
    assert |Lower(Lower(w1))| == 1;
  }

  /** Lower-casing and trimming two words joined by a space gives the lower-cased words, split as before. */
  lemma LoweredWords(w1: string, w2: string)
    requires NoSpace(w1) && NoSpace(w2) && w1 != [] && w2 != []
    ensures Trim(Lower(w1 + " " + w2)) == Lower(w1) + " " + Lower(w2)
    ensures Bare(Lower(w1) + " " + Lower(w2)) && SplitWs(Lower(w1) + " " + Lower(w2)) == [Lower(w1), Lower(w2)]
  {
    var a, b := Lower(w1), Lower(w2);
    var lt := a + " " + b;
    assert Lower(w1 + " " + w2) == lt by {
      LowerConcat(w1 + " ", w2);
      LowerConcat(w1, " ");
    }
    assert NoSpace(a) && NoSpace(b) && a != [] && b != [] by {
      LowerNoSpace(w1);
      LowerNoSpace(w2);
    }
    assert Bare(lt) by {
      assert lt[0] == a[0] && lt[|lt| - 1] == b[|b| - 1];
    }
    TrimUnchanged(lt);
    SplitWsTwo(a, b);
  }

  /** Lower-casing a word keeps it free of whitespace. */
  lemma LowerNoSpace(w: string)
    requires NoSpace(w)
    ensures NoSpace(Lower(w)) && |Lower(w)| == |w|
  {
    LowerKeepsSpaces(w);
  }


  /**
   * "option" and an option token, in any letter case, reaches the `option` entry ahead of the
   * later readings and reports the normalised answer letter.
   */
  lemma OptionRoute(w1: string, w2: string, ctx: Context)
    requires NoSpace(w1) && NoSpace(w2) && w2 != []
    requires Lower(w1) == "option" && IsOptionToken(Lower(w2))
    ensures RouteOf(DefaultCommands, w1 + " " + w2) == Command(5, OptionSelect, [w2])
    ensures Reaction(ctx, RouteOf(DefaultCommands, w1 + " " + w2)) == Report(ctx, NormaliseOption(w2), "answer")
  {
    OptionCommand(w1, w2);
    SelectReaction(ctx, RouteOf(DefaultCommands, w1 + " " + w2), w2);
  }

  lemma OptionCommand(w1: string, w2: string)
    requires NoSpace(w1) && NoSpace(w2) && w2 != []
    requires Lower(w1) == "option" && IsOptionToken(Lower(w2))
    ensures RouteOf(DefaultCommands, w1 + " " + w2) == Command(5, OptionSelect, [w2])
  {
    var t := w1 + " " + w2;
    TwoWords(w1, w2);
    FirstFiveMiss(t, [w1, w2]);
    OptionMatch(w1, w2);
    DefaultEntries();
    RouteAt(DefaultCommands, t, 5, OptionSelect, [w2]);
  }

  lemma OptionMatch(w1: string, w2: string)
    requires Bare(w1 + " " + w2) && SplitWs(w1 + " " + w2) == [w1, w2]
    requires Lower(w1) == "option" && IsOptionToken(Lower(w2))
    ensures Match(OptionPhrase, w1 + " " + w2) == Some([w2])
  {
    OptionTokenMatches(w1 + " " + w2, w1, w2, "option");
  }

  /**
   * With whitespace in front, no table entry matches the raw transcript, and the late
   * `option <token>` reading on the trimmed, lower-cased text picks the lower-cased token.
   */
  lemma PaddedOptionFallback(w1: string, w2: string)
    requires NoSpace(w1) && NoSpace(w2) && w2 != []
    requires Lower(w1) == "option" && IsOptionToken(Lower(w2))
    ensures RouteOf(DefaultCommands, " " + w1 + " " + w2) == FallbackOption(Lower(w2))
  {
    var t := " " + w1 + " " + w2;
    PaddedMisses(t);
    PaddedOptionWords(w1, w2);
    RouteNotUnderstood(DefaultCommands, t);
  }

  /** Whitespace in front defeats every entry: the phrases are anchored and the `option please` entry starts with its token. */
  lemma PaddedMisses(t: string)
    requires t != [] && t[0] == ' '
    ensures NoMatchBetween(DefaultCommands, t, 0, |DefaultCommands|)
  {
    assert IsSpace(t[0]) && !Bare(t);
    assert LowerChar(t[0]) == ' ';
    OptionPleaseMisses(t);
  }

  lemma PaddedOptionWords(w1: string, w2: string)
    requires NoSpace(w1) && NoSpace(w2) && w2 != []
    requires Lower(w1) == "option" && IsOptionToken(Lower(w2))
    ensures !IsOptionToken(Trim(Lower(" " + w1 + " " + w2)))
    ensures OptionWords(Trim(Lower(" " + w1 + " " + w2))) == Some(Lower(w2))
  {
    var a, b := Lower(w1), Lower(w2);
    PaddedLower(w1, w2);
    SplitWsTwo(a, b);
    LowerIdempotent(w1);
    LowerIdempotent(w2);
  }

  lemma PaddedLower(w1: string, w2: string)
    requires NoSpace(w1) && NoSpace(w2) && w1 != [] && w2 != []
    ensures NoSpace(Lower(w1)) && NoSpace(Lower(w2))
    ensures Trim(Lower(" " + w1 + " " + w2)) == Lower(w1) + " " + Lower(w2)
    ensures Bare(Lower(w1) + " " + Lower(w2))
  {
    var a, b := Lower(w1), Lower(w2);
    var lt := a + " " + b;
    LowerSpaced(" ", w1, w2);
    assert NoSpace(a) && NoSpace(b) && a != [] && b != [] by {
      LowerNoSpace(w1);
      LowerNoSpace(w2);
    }
    assert Bare(lt) by {
      assert lt[0] == a[0] && lt[|lt| - 1] == b[|b| - 1];
    }
    TrimLeadingSpace(lt);
  }


  lemma LowerSpaced(pad: string, w1: string, w2: string)
    requires pad == " " || pad == ""
    ensures Lower(pad + w1 + " " + w2) == pad + (Lower(w1) + " " + Lower(w2))
  {
    LowerConcat(pad + w1 + " ", w2);
    LowerConcat(pad + w1, " ");
    LowerConcat(pad, w1);
    assert pad + Lower(w1) + " " + Lower(w2) == pad + (Lower(w1) + " " + Lower(w2));
  }

  /** A route to the next-question handler announces the move and reports the command. */
  lemma NextReaction(ctx: Context, route: Route)
    requires route.Command? && route.handler == NextQuestion
    ensures Reaction(ctx, route) == Say(ctx, "Moving to the next question.") + Report(ctx, "next", "command")
  {
  }

  /** A route to the leaderboard handler announces it and reports the command. */
  lemma ShowReaction(ctx: Context, route: Route)
    requires route.Command? && route.handler == ShowLeaderboard
    ensures Reaction(ctx, route) == Say(ctx, "Showing leaderboard.") + Report(ctx, "leaderboard", "command")
  {
  }

  /** A route to the repeat handler repeats the current question and its options. */
  lemma RepeatReaction(ctx: Context, route: Route)
    requires route.Command? && route.handler == RepeatQuestion
    ensures Reaction(ctx, route) == RepeatReply(ctx)
  {
  }

  /** "show leaderboard" or "show scores", in any letter case, shows the leaderboard through the third entry. */
  lemma ShowScoresRoute(w1: string, w2: string, ctx: Context)
    requires NoSpace(w1) && NoSpace(w2) && w2 != []
    requires Lower(w1) == "show" && (Lower(w2) == "leaderboard" || Lower(w2) == "scores")
    ensures RouteOf(DefaultCommands, w1 + " " + w2) == Command(2, ShowLeaderboard, [w2])
    ensures Reaction(ctx, RouteOf(DefaultCommands, w1 + " " + w2))
      == Say(ctx, "Showing leaderboard.") + Report(ctx, "leaderboard", "command")
  {
    ShowScoresCommand(w1, w2);
    ShowReaction(ctx, RouteOf(DefaultCommands, w1 + " " + w2));
  }

  lemma ShowScoresCommand(w1: string, w2: string)
    requires NoSpace(w1) && NoSpace(w2) && w2 != []
    requires Lower(w1) == "show" && (Lower(w2) == "leaderboard" || Lower(w2) == "scores")
    ensures RouteOf(DefaultCommands, w1 + " " + w2) == Command(2, ShowLeaderboard, [w2])
  {
    TwoWords(w1, w2);
    ShowScoresMisses(w1 + " " + w2, [w1, w2]);
    ShowScoresMatch(w1, w2);
    DefaultEntries();
    RouteAt(DefaultCommands, w1 + " " + w2, 2, ShowLeaderboard, [w2]);
  }

  lemma ShowScoresMisses(t: string, ws: seq<string>)
    requires Bare(t) && SplitWs(t) == ws && ws != [] && Lower(ws[0]) == "show"
    ensures NoMatchBetween(DefaultCommands, t, 0, 2)
  {
    WordEntryMisses(ws, 0);
    WordEntryMisses(ws, 1);
  }

  lemma ShowScoresMatch(w1: string, w2: string)
    requires Bare(w1 + " " + w2) && SplitWs(w1 + " " + w2) == [w1, w2]
    requires Lower(w1) == "show" && (Lower(w2) == "leaderboard" || Lower(w2) == "scores")
    ensures Match(ShowPattern, w1 + " " + w2) == Some([w2])
  {
    assert [Lower(w2)] in LeaderboardAlts;
    WordThenAltMatch(w1 + " " + w2, w1, w2, "show", LeaderboardAlts);
  }

  // ---------------------------------------------------------------------------------------------
  // "read that one more time"
  // ---------------------------------------------------------------------------------------------

  /**
   * "read that one more time" (or "say", "question"), in any letter case, reaches the fifth
   * entry and repeats the current question and its options.
   */
  lemma ReadAgainRoute(w1: string, w2: string, w3: string, w4: string, w5: string, ctx: Context)
    requires NoSpace(w1) && NoSpace(w2) && NoSpace(w3) && NoSpace(w4) && NoSpace(w5)
    requires Lower(w1) == "read" || Lower(w1) == "say"
    requires Lower(w2) == "question" || Lower(w2) == "that"
    requires Lower(w3) == "one" && Lower(w4) == "more" && Lower(w5) == "time"
    ensures RouteOf(DefaultCommands, w1 + " " + (w2 + " " + (w3 + " " + (w4 + " " + w5))))
      == Command(4, RepeatQuestion, [w1, w2, w3 + " " + (w4 + " " + w5)])
    ensures Reaction(ctx, RouteOf(DefaultCommands, w1 + " " + (w2 + " " + (w3 + " " + (w4 + " " + w5)))))
      == RepeatReply(ctx)
  {
    ReadAgainCommand(w1, w2, w3, w4, w5);
    RepeatReaction(ctx, RouteOf(DefaultCommands, w1 + " " + (w2 + " " + (w3 + " " + (w4 + " " + w5)))));
  }

  lemma ReadAgainCommand(w1: string, w2: string, w3: string, w4: string, w5: string)
    requires NoSpace(w1) && NoSpace(w2) && NoSpace(w3) && NoSpace(w4) && NoSpace(w5)
    requires Lower(w1) == "read" || Lower(w1) == "say"
    requires Lower(w2) == "question" || Lower(w2) == "that"
    requires Lower(w3) == "one" && Lower(w4) == "more" && Lower(w5) == "time"
    ensures RouteOf(DefaultCommands, w1 + " " + (w2 + " " + (w3 + " " + (w4 + " " + w5))))
      == Command(4, RepeatQuestion, [w1, w2, w3 + " " + (w4 + " " + w5)])
  {
    ReadAgainWordsOf(w1, w2, w3, w4, w5);
    FiveWords(w1, w2, w3, w4, w5);
    ReadAgainAt(w1 + " " + (w2 + " " + (w3 + " " + (w4 + " " + w5))), [w1, w2, w3, w4, w5]);
  }

  /** The words the fifth entry accepts, in any letter case, ending in "one more time". */
  predicate ReadAgainWords(ws: seq<string>)
  {
    |ws| == 5 && (Lower(ws[0]) == "read" || Lower(ws[0]) == "say")
    && (Lower(ws[1]) == "question" || Lower(ws[1]) == "that")
    && Lower(ws[2]) == "one" && Lower(ws[3]) == "more" && Lower(ws[4]) == "time"
  }

  lemma ReadAgainWordsOf(w1: string, w2: string, w3: string, w4: string, w5: string)
    requires Lower(w1) == "read" || Lower(w1) == "say"
    requires Lower(w2) == "question" || Lower(w2) == "that"
    requires Lower(w3) == "one" && Lower(w4) == "more" && Lower(w5) == "time"
    ensures ReadAgainWords([w1, w2, w3, w4, w5])
    ensures w1 != [] && w2 != [] && w3 != [] && w4 != [] && w5 != []
  {
    var ws := [w1, w2, w3, w4, w5];
    assert ws[0] == w1 && ws[1] == w2 && ws[2] == w3 && ws[3] == w4 && ws[4] == w5;
  }

  /** The same for any transcript that splits into such five words. */
  lemma ReadAgainAt(t: string, ws: seq<string>)
    requires Bare(t) && SplitWs(t) == ws && !IsOptionToken(Trim(Lower(t))) && ReadAgainWords(ws)
    ensures RouteOf(DefaultCommands, t) == Command(4, RepeatQuestion, [ws[0], ws[1], ws[2] + " " + (ws[3] + " " + ws[4])])
  {
    ReadAgainMatch(ws);
    assert ws != [] && (Lower(ws[0]) == "read" || Lower(ws[0]) == "say");
    ReadAgainMisses(t, ws);
    DefaultEntries();
    RouteAt(DefaultCommands, t, 4, RepeatQuestion, [ws[0], ws[1], ws[2] + " " + (ws[3] + " " + ws[4])]);
  }

  /** Words led by "read" or "say" miss the four entries ahead of the fifth. */
  lemma ReadAgainMisses(t: string, ws: seq<string>)
    requires Bare(t) && SplitWs(t) == ws && ws != [] && (Lower(ws[0]) == "read" || Lower(ws[0]) == "say")
    ensures NoMatchBetween(DefaultCommands, t, 0, 4)
  {
    forall j | 0 <= j < 4
      ensures Match(DefaultCommands[j].0, t).None?
    {
      ReadEntryMisses(ws, j);
    }
  }

  lemma ReadEntryMisses(ws: seq<string>, j: nat)
    requires ws != [] && (Lower(ws[0]) == "read" || Lower(ws[0]) == "say") && j < 4
    ensures DefaultCommands[j].0.Phrase? && MatchWords(ws, DefaultCommands[j].0.parts).None?
  {
    if j < 3 {
      WordEntryMisses(ws, j);
    } else {
      GroupEntryMisses(ws, 3);
    }
  }

  /** Five words joined by single spaces: no edge whitespace, those five words, and no lone option token. */
  lemma FiveWords(w1: string, w2: string, w3: string, w4: string, w5: string)
    requires NoSpace(w1) && NoSpace(w2) && NoSpace(w3) && NoSpace(w4) && NoSpace(w5)
    requires w1 != [] && w2 != [] && w3 != [] && w4 != [] && w5 != []
    ensures Bare(w1 + " " + (w2 + " " + (w3 + " " + (w4 + " " + w5))))
    ensures SplitWs(w1 + " " + (w2 + " " + (w3 + " " + (w4 + " " + w5)))) == [w1, w2, w3, w4, w5]
    ensures !IsOptionToken(Trim(Lower(w1 + " " + (w2 + " " + (w3 + " " + (w4 + " " + w5))))))
  {
    var r := w4 + " " + w5;
    FiveSplit(w1, w2, w3, w4, w5);
    SpacedBare(w4, w5);
    SpacedBare(w3, r);
    SpacedBare(w2, w3 + " " + r);
    SpacedBare(w1, w2 + " " + (w3 + " " + r));
    LongNotOption(w1 + " " + (w2 + " " + (w3 + " " + r)));
  }

  lemma FiveSplit(w1: string, w2: string, w3: string, w4: string, w5: string)
    requires NoSpace(w1) && NoSpace(w2) && NoSpace(w3) && NoSpace(w4) && NoSpace(w5)
    requires w2 != [] && w3 != [] && w4 != [] && w5 != []
    ensures SplitWs(w1 + " " + (w2 + " " + (w3 + " " + (w4 + " " + w5)))) == [w1, w2, w3, w4, w5]
  {
    var r := w4 + " " + w5;
    ThreeWords(w1, w2, w3, r);
    assert LeadingSpaces(r) == 0 by { assert !IsSpace(r[0]); }
    assert r[LeadingSpaces(r)..] == r;
    SplitWsTwo(w4, w5);
    assert [w1, w2, w3] + [w4, w5] == [w1, w2, w3, w4, w5];
  }

  /** Two stretches without edge whitespace, joined by a space, have none either. */
  lemma SpacedBare(a: string, b: string)
    requires (NoSpace(a) && a != []) || Bare(a)
    requires (NoSpace(b) && b != []) || Bare(b)
    ensures Bare(a + " " + b) && |a + " " + b| >= 3
  {
    var t := a + " " + b;
    assert t[0] == a[0] && t[|t| - 1] == b[|b| - 1];
  }

  /** A transcript of two or more characters without edge whitespace is no lone option token. */
  lemma LongNotOption(t: string)
    requires Bare(t) && |t| >= 2
    ensures !IsOptionToken(Trim(Lower(t)))
  {
    LowerKeepsSpaces(t);
    TrimUnchanged(Lower(t));
  }

  /** The fifth entry's pattern captures the first word, the second word and the closing phrase. */
  lemma ReadAgainMatch(ws: seq<string>)
    requires ReadAgainWords(ws)
    ensures MatchWords(ws, ReadAgainPattern.parts) == Some([ws[0], ws[1], ws[2] + " " + (ws[3] + " " + ws[4])])
  {
    var parts := ReadAgainPattern.parts;
    var rest := [Group(QuestionThatAlts), Group(AgainAlts)];
    var g := [ws[1], ws[2] + " " + (ws[3] + " " + ws[4])];
    assert parts[0] == Group(ReadSayAlts) && parts[1..] == rest;
    assert MatchWords(ws, parts) == MatchAlts(ws, ReadSayAlts, rest);
    assert ReadSayAlts[0] == ["read"] && ReadSayAlts[1] == ["say"];
    var tail := ws[1..];
    assert tail[0] == ws[1] && tail[1] == ws[2] && tail[2] == ws[3] && tail[3] == ws[4];
    QuestionAgainMatch(tail);
    var i := if Lower(ws[0]) == "read" then 0 else 1;
    assert StartsWithWords(ws, ReadSayAlts[i]);
    assert ws[|ReadSayAlts[i]|..] == tail;
    AltAt(ws, ReadSayAlts, rest, i, g);
    assert ws[..|ReadSayAlts[i]|] == [ws[0]];
    assert MatchAlts(ws, ReadSayAlts, rest) == Some([Join([ws[0]], " ")] + g);
    assert Join([ws[0]], " ") == ws[0];
    assert MatchWords(ws, parts) == Some([ws[0]] + g);
    assert [ws[0]] + g == [ws[0], ws[1], ws[2] + " " + (ws[3] + " " + ws[4])];
  }

  lemma QuestionAgainMatch(ws: seq<string>)
    requires |ws| == 4 && (Lower(ws[0]) == "question" || Lower(ws[0]) == "that")
    requires Lower(ws[1]) == "one" && Lower(ws[2]) == "more" && Lower(ws[3]) == "time"
    ensures MatchWords(ws, [Group(QuestionThatAlts), Group(AgainAlts)])
      == Some([ws[0], ws[1] + " " + (ws[2] + " " + ws[3])])
  {
    var parts := [Group(QuestionThatAlts), Group(AgainAlts)];
    var rest := [Group(AgainAlts)];
    var g := [ws[1] + " " + (ws[2] + " " + ws[3])];
    assert parts[0] == Group(QuestionThatAlts) && parts[1..] == rest;
    assert MatchWords(ws, parts) == MatchAlts(ws, QuestionThatAlts, rest);
    assert QuestionThatAlts[0] == ["question"] && QuestionThatAlts[1] == ["that"];
    var tail := ws[1..];
    assert tail[0] == ws[1] && tail[1] == ws[2] && tail[2] == ws[3];
    AgainMatch(tail);
    var i := if Lower(ws[0]) == "question" then 0 else 1;
    assert StartsWithWords(ws, QuestionThatAlts[i]);
    assert ws[|QuestionThatAlts[i]|..] == tail;
    AltAt(ws, QuestionThatAlts, rest, i, g);
    assert ws[..|QuestionThatAlts[i]|] == [ws[0]];
    assert MatchAlts(ws, QuestionThatAlts, rest) == Some([Join([ws[0]], " ")] + g);
    assert Join([ws[0]], " ") == ws[0];
    assert MatchWords(ws, parts) == Some([ws[0]] + g);
    assert [ws[0]] + g == [ws[0], ws[1] + " " + (ws[2] + " " + ws[3])];
  }

  lemma AgainMatch(ws: seq<string>)
    requires |ws| == 3 && Lower(ws[0]) == "one" && Lower(ws[1]) == "more" && Lower(ws[2]) == "time"
    ensures MatchWords(ws, [Group(AgainAlts)]) == Some([ws[0] + " " + (ws[1] + " " + ws[2])])
  {
    assert [Group(AgainAlts)][0] == Group(AgainAlts) && [Group(AgainAlts)][1..] == [];
    assert MatchWords(ws, [Group(AgainAlts)]) == MatchAlts(ws, AgainAlts, []);
    assert AgainAlts[0] == ["again"] && AgainAlts[1] == ["one", "more", "time"];
    assert !StartsWithWords(ws, AgainAlts[0]);
    assert StartsWithWords(ws, AgainAlts[1]);
    assert ws[3..] == [];
    AltAt(ws, AgainAlts, [], 1, []);
    assert ws[..|AgainAlts[1]|] == ws;
    JoinThree(ws);
    assert MatchAlts(ws, AgainAlts, []) == Some([Join(ws, " ")] + []);
    assert [Join(ws, " ")] + [] == [Join(ws, " ")];
  }

  lemma JoinThree(ws: seq<string>)
    requires |ws| == 3
    ensures Join(ws, " ") == ws[0] + " " + (ws[1] + " " + ws[2])
  {
    assert ws[1..][1..] == [ws[2]];
  }

  /**
   * A group matches through its alternative `i` when no earlier alternative starts the words,
   * alternative `i` does and the rest of the pattern matches what follows it.
   */
  lemma {:induction false} AltAt(ws: seq<string>, alts: seq<seq<string>>, rest: seq<Part>, i: nat, g: seq<string>)
    requires i < |alts| && forall k :: 0 <= k < i ==> !StartsWithWords(ws, alts[k])
    requires StartsWithWords(ws, alts[i]) && MatchWords(ws[|alts[i]|..], rest) == Some(g)
    ensures MatchAlts(ws, alts, rest) == Some([Join(ws[..|alts[i]|], " ")] + g)
    decreases i
  {
    if i > 0 {
      assert !StartsWithWords(ws, alts[0]);
      assert alts[1..][i - 1] == alts[i];
      AltAt(ws, alts[1..], rest, i - 1, g);
    }
  }
}
