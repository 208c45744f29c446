/**
 * The quiz session of quiz.js (`QuizGenerator`): templated question generation, the
 * Fisher-Yates shuffle, grading, and the session state (questions, current index,
 * running score, answer log, countdown) updated by submission and navigation.
 */
module QuizSession {
  import opened Wrappers
  import opened Text
  import opened Sequences

  /** The answer key of a fill-in-the-blank question: one string, or a list of accepted fragments. */
  datatype FillKey = Exact(text: string) | AnyOf(fragments: seq<string>)

  /** A question's `type` together with its `correctAnswer`. */
  datatype Kind =
    | Mcq(correctIndex: int)
    | ShortAnswer(modelAnswer: string)
    | LongAnswer(modelAnswer: string)
    | FillBlank(key: FillKey)
    | Unrecognised(typeName: string)

  /** A generated question; its prompt, options, explanation and fun fact are display text and are not modelled. */
  datatype Question = Question(id: string, kind: Kind, difficulty: string, points: int)

  /** What the user gives: an option index for multiple choice, text otherwise. */
  datatype Answer = OptionIndex(index: int) | Written(text: string)

  /** One entry of `userAnswers`. */
  datatype AnswerRecord = AnswerRecord(questionId: string, answer: Answer, isCorrect: bool, points: int)

  /** The result of `getScore`. */
  datatype ScoreReport = ScoreReport(score: int, total: int, correct: nat, totalQuestions: nat)

  // ---------------------------------------------------------------------------------------------
  // Grading
  // ---------------------------------------------------------------------------------------------

  const StopWords: set<string> :=
    {"the", "a", "an", "is", "are", "was", "were", "to", "of", "and", "in", "that", "for", "on", "with"}

  /**
   * A token kept by `extractKeywords`: longer than three characters and not a stop word.
   * `word.length` counts UTF-16 code units, so a character beyond U+FFFF counts twice.
   */
  predicate IsKeyword(w: string)
  {
    Utf16Length(w) > 3 && Lower(w) !in StopWords
  }

  /** The tokens that pass the keyword filter, in their original order and as often as they occur. */
  function Qualifying(words: seq<string>): (r: seq<string>)
    ensures forall w :: w in r ==> IsKeyword(w)
    ensures forall w :: w in words && IsKeyword(w) ==> w in r
    ensures forall w :: multiset(r)[w] == if IsKeyword(w) then multiset(words)[w] else 0
    ensures Subsequence(r, words)
  {
    if words == [] then []
    else
      var rest := Qualifying(words[1..]);
      assert [words[0]] + words[1..] == words;
      assert multiset(words) == multiset{words[0]} + multiset(words[1..]);
      if IsKeyword(words[0]) then
        SubsequenceCons(words[0], rest, words[1..]);
        assert multiset([words[0]] + rest) == multiset{words[0]} + multiset(rest);
        [words[0]] + rest
      else
        SubsequenceSkip(words[0], rest, words[1..]);
        rest
  }

  /** Two emoji make a keyword: together they are four UTF-16 code units long. */
  lemma AstralKeyword()
    ensures |"\U{1F3B5}\U{1F3B6}"| == 2 && IsKeyword("\U{1F3B5}\U{1F3B6}")
  {
    var w := "\U{1F3B5}\U{1F3B6}";
    assert Utf16Length(w) == 2 + Utf16Length(w[1..]);
    assert Utf16Length(w[1..]) == 2 + Utf16Length(w[2..]);
    assert w[2..] == [];
    assert Lower(w) == w;
  }

  /** `extractKeywords`: the first (at most) three whitespace-separated tokens that pass the keyword filter. */
  function ExtractKeywords(text: string): (r: seq<string>)
    ensures |r| <= 3
    ensures forall w :: w in r ==> IsKeyword(w) && NoSpace(w) && Contains(text, w)
    ensures Subsequence(r, SplitWs(text))
    ensures |r| < 3 ==> forall w :: w in SplitWs(text) && IsKeyword(w) ==> w in r
    ensures var q := Qualifying(SplitWs(text)); r <= q && |r| == (if |q| < 3 then |q| else 3)
  {
    var words := SplitWs(text);
    var q := Qualifying(words);
    var r := if |q| <= 3 then q else q[..3];
    SubsequencePrefix(q, words, |r|);
    assert q[..|r|] == r;
    forall w | w in r ensures NoSpace(w) && Contains(text, w) {
      SubsequenceMembers(r, words, w);
      SplitFieldsOccur(text, w);
    }
    r
  }

  /** `needles.some(k => answer.toLowerCase().includes(k.toLowerCase()))`. */
  predicate AnyIncluded(answer: string, needles: seq<string>)
  {
    needles != [] && (Contains(Lower(answer), Lower(needles[0])) || AnyIncluded(answer, needles[1..]))
  }

  lemma {:induction false} AnyIncludedIff(answer: string, needles: seq<string>)
    ensures AnyIncluded(answer, needles) <==> exists k :: k in needles && Contains(Lower(answer), Lower(k))
  {
    if needles != [] {
      AnyIncludedIff(answer, needles[1..]);
      assert forall k :: k in needles <==> k == needles[0] || k in needles[1..];
    }
  }

  /**
   * The answers `checkAnswer` can grade without a JavaScript TypeError: text questions call
   * `toLowerCase` on the answer whenever they have something to compare it with.
   */
  predicate Gradable(q: Question, a: Answer)
  {
    match q.kind
    case ShortAnswer(m) => a.Written? || ExtractKeywords(m) == []
    case LongAnswer(m) => a.Written? || ExtractKeywords(m) == []
    case FillBlank(Exact(_)) => a.Written?
    case FillBlank(AnyOf(fs)) => a.Written? || fs == []
    case _ => true
  }

  /** `checkAnswer`: the grading policy, one rule per question type. */
  function CheckAnswer(q: Question, a: Answer): (correct: bool)
    requires Gradable(q, a)
    ensures q.kind.Mcq? ==> (correct <==> a == OptionIndex(q.kind.correctIndex))
    ensures (q.kind.ShortAnswer? || q.kind.LongAnswer?) ==>
      (correct <==> a.Written? && exists k :: k in ExtractKeywords(q.kind.modelAnswer) && Contains(Lower(a.text), Lower(k)))
    ensures (q.kind.ShortAnswer? || q.kind.LongAnswer?) && ExtractKeywords(q.kind.modelAnswer) == [] ==> !correct
    ensures q.kind.FillBlank? && q.kind.key.AnyOf? ==>
      (correct <==> a.Written? && exists f :: f in q.kind.key.fragments && Contains(Lower(a.text), Lower(f)))
    ensures q.kind.FillBlank? && q.kind.key.Exact? ==> (correct <==> Lower(a.text) == Lower(q.kind.key.text))
    ensures q.kind.Unrecognised? ==> !correct
  {
    match q.kind
    case Mcq(c) => a == OptionIndex(c)
    case ShortAnswer(m) => a.Written? && (AnyIncludedIff(a.text, ExtractKeywords(m)); AnyIncluded(a.text, ExtractKeywords(m)))
    case LongAnswer(m) => a.Written? && (AnyIncludedIff(a.text, ExtractKeywords(m)); AnyIncluded(a.text, ExtractKeywords(m)))
    case FillBlank(AnyOf(fs)) => a.Written? && (AnyIncludedIff(a.text, fs); AnyIncluded(a.text, fs))
    case FillBlank(Exact(t)) => Lower(a.text) == Lower(t)
    case Unrecognised(_) => false
  }

  // ---------------------------------------------------------------------------------------------
  // Lookups and sums over the session's lists
  // ---------------------------------------------------------------------------------------------

  /** `questions.find(q => q.id === id)`, as the position of the first question with that id. */
  function IndexOfId(qs: seq<Question>, id: string): (r: Option<nat>)
    ensures r.Some? ==> r.value < |qs| && qs[r.value].id == id && forall j :: 0 <= j < r.value ==> qs[j].id != id
    ensures r.None? ==> forall j :: 0 <= j < |qs| ==> qs[j].id != id
  {
    if qs == [] then None
    else if qs[0].id == id then Some(0)
    else match IndexOfId(qs[1..], id)
      case None => None
      case Some(k) => Some(k + 1)
  }

  /** No two questions share an id. */
  predicate UniqueIds(qs: seq<Question>)
  {
    forall a, b :: 0 <= a < |qs| && 0 <= b < |qs| && a != b ==> qs[a].id != qs[b].id
  }

  /** With unique ids, looking a question's id up finds that very question. */
  lemma IndexOfOwnId(qs: seq<Question>, k: nat)
    requires UniqueIds(qs) && k < |qs|
    ensures IndexOfId(qs, qs[k].id) == Some(k)
  {
  }

  /** `questions.reduce((sum, q) => sum + q.points, 0)`. */
  function TotalPoints(qs: seq<Question>): int
  {
    if qs == [] then 0 else qs[0].points + TotalPoints(qs[1..])
  }

  lemma {:induction false} TotalPointsAppend(a: seq<Question>, b: seq<Question>)
    ensures TotalPoints(a + b) == TotalPoints(a) + TotalPoints(b)
  {
    if a != [] {
      assert (a + b)[1..] == a[1..] + b;
      TotalPointsAppend(a[1..], b);
    } else {
      assert a + b == b;
    }
  }

  /** The points awarded over an answer log. */
  function SumPoints(rs: seq<AnswerRecord>): int
  {
    if rs == [] then 0 else SumPoints(rs[..|rs| - 1]) + rs[|rs| - 1].points
  }

  /** `userAnswers.filter(a => a.isCorrect).length`. */
  function CorrectCount(rs: seq<AnswerRecord>): (n: nat)
    ensures n <= |rs|
  {
    if rs == [] then 0 else CorrectCount(rs[..|rs| - 1]) + (if rs[|rs| - 1].isCorrect then 1 else 0)
  }

  /** The points of the correct answers only. */
  function CorrectPoints(rs: seq<AnswerRecord>): int
  {
    if rs == [] then 0 else CorrectPoints(rs[..|rs| - 1]) + (if rs[|rs| - 1].isCorrect then rs[|rs| - 1].points else 0)
  }

  /** When wrong answers carry no points, the awarded points are the points of the correct answers. */
  lemma {:induction false} SumPointsIsCorrectPoints(rs: seq<AnswerRecord>)
    requires forall r :: r in rs ==> r.isCorrect || r.points == 0
    ensures SumPoints(rs) == CorrectPoints(rs)
  {
    if rs != [] {
      assert forall r :: r in rs[..|rs| - 1] ==> r in rs;
      SumPointsIsCorrectPoints(rs[..|rs| - 1]);
    }
  }

  lemma AppendRecord(rs: seq<AnswerRecord>, r: AnswerRecord)
    ensures SumPoints(rs + [r]) == SumPoints(rs) + r.points
    ensures CorrectCount(rs + [r]) == CorrectCount(rs) + (if r.isCorrect then 1 else 0)
  {
    assert (rs + [r])[..|rs|] == rs;
  }

  // ---------------------------------------------------------------------------------------------
  // Generation
  // ---------------------------------------------------------------------------------------------

  const Difficulties: seq<string> := ["easy", "medium", "hard"]

  /** The four batches `generateMockQuestions` produces, in the order it produces them. */
  datatype Batch = McqBatch | ShortBatch | LongBatch | FillBatch

  /** The point value of a question of the batch at the difficulty: any difficulty other than easy or medium scores as hard. */
  function PointsFor(b: Batch, diff: string): int
  {
    match b
    case McqBatch => if diff == "easy" then 1 else if diff == "medium" then 2 else 3
    case ShortBatch => if diff == "easy" then 2 else if diff == "medium" then 3 else 4
    case LongBatch => if diff == "easy" then 3 else if diff == "medium" then 4 else 5
    case FillBatch => if diff == "easy" then 1 else if diff == "medium" then 2 else 3
  }

  function IdPrefix(b: Batch): string
  {
    match b
    case McqBatch => "mcq-"
    case ShortBatch => "short-"
    case LongBatch => "long-"
    case FillBatch => "fill-"
  }

  /** Position of the batch's first question in the generated list. */
  function BatchOffset(b: Batch, count: nat): nat
  {
    match b
    case McqBatch => 0
    case ShortBatch => count
    case LongBatch => 2 * count
    case FillBatch => 3 * count
  }

  /**
   * The random draws generation consumes: one difficulty roll (an index into `Difficulties`)
   * per question, used only when no difficulty is given, and one correct option (0 to 3) per
   * multiple-choice question.
   */
  predicate GenerationDraws(count: nat, rolls: seq<nat>, keys: seq<nat>)
  {
    && |rolls| == 4 * count && (forall i :: 0 <= i < |rolls| ==> rolls[i] < 3)
    && |keys| == count && (forall i :: 0 <= i < |keys| ==> keys[i] < 4)
  }

  /** `difficulty || difficulties[random]`: an empty difficulty is falsy and is replaced by a drawn one. */
  function DrawnDifficulty(difficulty: string, rolls: seq<nat>, i: nat): string
    requires i < |rolls| && rolls[i] < 3
  {
    if difficulty != "" then difficulty else Difficulties[rolls[i]]
  }

  /** The accepted fragments of every generated fill-in-the-blank question. */
  const FillFragments: seq<string> := ["key concept", "important principle"]

  /** The `k`-th question of a batch, as the templates of `generateMockQuestions` build it. */
  function MakeQuestion(b: Batch, k: nat, topic: string, diff: string, key: nat): Question
  {
    var id := IdPrefix(b) + NatToString(k);
    match b
    case McqBatch => Question(id, Mcq(key), diff, PointsFor(b, diff))
    case ShortBatch => Question(id, ShortAnswer("A key aspect of " + topic + " is..."), diff, PointsFor(b, diff))
    case LongBatch => Question(id, LongAnswer(topic + " has evolved significantly over time..."), diff, PointsFor(b, diff))
    case FillBatch => Question(id, FillBlank(AnyOf(FillFragments)), diff, PointsFor(b, diff))
  }

  /** The batch of position `i` of the generated list, and the question's number within that batch. */
  function Position(count: nat, i: nat): (p: (Batch, nat))
    requires i < 4 * count
    ensures p.1 < count && i == BatchOffset(p.0, count) + p.1
  {
    if i < count then (McqBatch, i)
    else if i < 2 * count then (ShortBatch, i - count)
    else if i < 3 * count then (LongBatch, i - 2 * count)
    else (FillBatch, i - 3 * count)
  }

  /** The question at position `i` of the generated list. */
  function GeneratedAt(topic: string, difficulty: string, count: nat, rolls: seq<nat>, keys: seq<nat>, i: nat): Question
    requires GenerationDraws(count, rolls, keys) && i < 4 * count
  {
    var p := Position(count, i);
    MakeQuestion(p.0, p.1, topic, DrawnDifficulty(difficulty, rolls, i), keys[p.1])
  }

  /** What `generateMockQuestions(topic, difficulty, count)` returns for the given random draws. */
  function MockQuestions(topic: string, difficulty: string, count: nat, rolls: seq<nat>, keys: seq<nat>): (qs: seq<Question>)
    requires GenerationDraws(count, rolls, keys)
    ensures |qs| == 4 * count
  {
    seq(4 * count, i requires 0 <= i < 4 * count => GeneratedAt(topic, difficulty, count, rolls, keys, i))
  }

  /** The batch a question's kind belongs to. */
  function BatchOf(kind: Kind): Batch
  {
    match kind
    case Mcq(_) => McqBatch
    case ShortAnswer(_) => ShortBatch
    case LongAnswer(_) => LongBatch
    case _ => FillBatch
  }

  /**
   * Generation yields four batches of `count` questions in a fixed order (multiple choice, short
   * answer, long answer, fill in the blank), numbered from 0 within each batch, every
   * multiple-choice key being the drawn one.
   */
  lemma MockQuestionsLayout(topic: string, difficulty: string, count: nat, rolls: seq<nat>, keys: seq<nat>)
    requires GenerationDraws(count, rolls, keys)
    ensures var qs := MockQuestions(topic, difficulty, count, rolls, keys);
      && (forall i :: 0 <= i < |qs| ==>
            BatchOf(qs[i].kind) == Position(count, i).0 && qs[i].id == IdPrefix(Position(count, i).0) + NatToString(Position(count, i).1))
      && (forall k :: 0 <= k < count ==> qs[k].kind == Mcq(keys[k]))
  {
  }

  /** A question's points are fixed by its batch and difficulty and lie between 1 and 5; a drawn difficulty is easy, medium or hard. */
  lemma MockQuestionsPoints(topic: string, difficulty: string, count: nat, rolls: seq<nat>, keys: seq<nat>)
    requires GenerationDraws(count, rolls, keys)
    ensures var qs := MockQuestions(topic, difficulty, count, rolls, keys);
      forall i :: 0 <= i < |qs| ==>
        && 1 <= qs[i].points <= 5
        && (if difficulty != "" then qs[i].difficulty == difficulty else qs[i].difficulty in Difficulties)
        && qs[i].points == PointsFor(BatchOf(qs[i].kind), qs[i].difficulty)
  {
  }

  /** Two generated ids are equal only for the same batch and the same number. */
  lemma IdsDiffer(b1: Batch, k1: nat, b2: Batch, k2: nat)
    requires IdPrefix(b1) + NatToString(k1) == IdPrefix(b2) + NatToString(k2)
    ensures b1 == b2 && k1 == k2
  {
    var s1, s2 := IdPrefix(b1) + NatToString(k1), IdPrefix(b2) + NatToString(k2);
    assert s1[0] == IdPrefix(b1)[0] && s2[0] == IdPrefix(b2)[0];
    var n := |IdPrefix(b1)|;
    assert s1[n..] == NatToString(k1) && s2[n..] == NatToString(k2);
    NatToStringInjective(k1, k2);
  }

  /** The ids of a list laid out the way generation lays it out: batch prefix, then the number within the batch. */
  predicate PositionedIds(qs: seq<Question>, count: nat)
  {
    |qs| == 4 * count
    && forall i :: 0 <= i < |qs| ==> qs[i].id == IdPrefix(Position(count, i).0) + NatToString(Position(count, i).1)
  }

  lemma PositionedIdsUnique(qs: seq<Question>, count: nat)
    requires PositionedIds(qs, count)
    ensures UniqueIds(qs)
  {
    forall i, j | 0 <= i < |qs| && 0 <= j < |qs| && i != j ensures qs[i].id != qs[j].id {
      var pi, pj := Position(count, i), Position(count, j);
      if qs[i].id == qs[j].id {
        IdsDiffer(pi.0, pi.1, pj.0, pj.1);
      }
    }
  }

  /** Every generated question has its own id. */
  lemma MockQuestionsUniqueIds(topic: string, difficulty: string, count: nat, rolls: seq<nat>, keys: seq<nat>)
    requires GenerationDraws(count, rolls, keys)
    ensures UniqueIds(MockQuestions(topic, difficulty, count, rolls, keys))
  {
    MockQuestionsLayout(topic, difficulty, count, rolls, keys);
    PositionedIdsUnique(MockQuestions(topic, difficulty, count, rolls, keys), count);
  }

  /** A list of questions all worth `p` points is worth `|qs| * p`. */
  lemma {:induction false} UniformTotal(qs: seq<Question>, p: int)
    requires forall i :: 0 <= i < |qs| ==> qs[i].points == p
    ensures TotalPoints(qs) == |qs| * p
  {
    if qs != [] {
      UniformTotal(qs[1..], p);
      assert TotalPoints(qs) == p + (|qs| - 1) * p;
    }
  }

  /** The points of a list laid out by batch, every question at the difficulty `diff`. */
  predicate PositionedPoints(qs: seq<Question>, count: nat, diff: string)
  {
    |qs| == 4 * count && forall i :: 0 <= i < |qs| ==> qs[i].points == PointsFor(Position(count, i).0, diff)
  }

  /** The block of batch `b` in a list laid out by batch. */
  function BatchSlice(qs: seq<Question>, b: Batch, count: nat): (r: seq<Question>)
    requires |qs| == 4 * count
    ensures |r| == count
  {
    qs[BatchOffset(b, count)..BatchOffset(b, count) + count]
  }

  /** Each batch of such a list is worth `count` times the batch's points. */
  lemma BatchTotal(qs: seq<Question>, count: nat, diff: string, b: Batch)
    requires PositionedPoints(qs, count, diff)
    ensures TotalPoints(BatchSlice(qs, b, count)) == count * PointsFor(b, diff)
  {
    var o := BatchOffset(b, count);
    var part := BatchSlice(qs, b, count);
    forall k | 0 <= k < count ensures part[k].points == PointsFor(b, diff) {
      assert part[k] == qs[o + k];
      assert Position(count, o + k) == (b, k);
    }
    UniformTotal(part, PointsFor(b, diff));
  }

  /** A list cut into its four batches, worth `c * p` points each, is worth `c` times their sum. */
  lemma FourBlocks(qs: seq<Question>, c: nat, pm: int, ps: int, pl: int, pf: int)
    requires |qs| == 4 * c
    requires TotalPoints(BatchSlice(qs, McqBatch, c)) == c * pm && TotalPoints(BatchSlice(qs, ShortBatch, c)) == c * ps
    requires TotalPoints(BatchSlice(qs, LongBatch, c)) == c * pl && TotalPoints(BatchSlice(qs, FillBatch, c)) == c * pf
    ensures TotalPoints(qs) == c * (pm + ps + pl + pf)
  {
    var m, s, l, f := BatchSlice(qs, McqBatch, c), BatchSlice(qs, ShortBatch, c), BatchSlice(qs, LongBatch, c), BatchSlice(qs, FillBatch, c);
    assert qs == m + s + l + f;
    TotalPointsAppend(m, s);
    TotalPointsAppend(m + s, l);
    TotalPointsAppend(m + s + l, f);
    assert c * (pm + ps + pl + pf) == c * pm + c * ps + c * pl + c * pf;
  }

  /** With a fixed difficulty the quiz is worth `count` times the points of one question of each batch. */
  lemma MockQuestionsTotal(topic: string, difficulty: string, count: nat, rolls: seq<nat>, keys: seq<nat>)
    requires GenerationDraws(count, rolls, keys) && difficulty != ""
    ensures TotalPoints(MockQuestions(topic, difficulty, count, rolls, keys))
         == count * (PointsFor(McqBatch, difficulty) + PointsFor(ShortBatch, difficulty)
                     + PointsFor(LongBatch, difficulty) + PointsFor(FillBatch, difficulty))
  {
    var qs := MockQuestions(topic, difficulty, count, rolls, keys);
    MockQuestionsLayout(topic, difficulty, count, rolls, keys);
    MockQuestionsPoints(topic, difficulty, count, rolls, keys);
    assert PositionedPoints(qs, count, difficulty);
    PositionedTotal(qs, count, difficulty);
  }

  /** A list laid out by batch at one difficulty is worth `count` times the points of one question of each batch. */
  lemma PositionedTotal(qs: seq<Question>, count: nat, diff: string)
    requires PositionedPoints(qs, count, diff)
    ensures TotalPoints(qs) == count * (PointsFor(McqBatch, diff) + PointsFor(ShortBatch, diff)
                                        + PointsFor(LongBatch, diff) + PointsFor(FillBatch, diff))
  {
    BatchTotal(qs, count, diff, McqBatch);
    BatchTotal(qs, count, diff, ShortBatch);
    BatchTotal(qs, count, diff, LongBatch);
    BatchTotal(qs, count, diff, FillBatch);
    FourBlocks(qs, count, PointsFor(McqBatch, diff), PointsFor(ShortBatch, diff),
               PointsFor(LongBatch, diff), PointsFor(FillBatch, diff));
  }

  /** `qs` holds the first `|qs|` questions of the generated list. */
  predicate GeneratedPrefix(qs: seq<Question>, topic: string, difficulty: string, count: nat, rolls: seq<nat>, keys: seq<nat>)
    requires GenerationDraws(count, rolls, keys)
  {
    |qs| <= 4 * count && forall j :: 0 <= j < |qs| ==> qs[j] == GeneratedAt(topic, difficulty, count, rolls, keys, j)
  }

  /** Pushing the `k`-th template of batch `b` right after the questions before it extends the prefix. */
  lemma PushTemplate(qs: seq<Question>, b: Batch, k: nat, diff: string,
                     topic: string, difficulty: string, count: nat, rolls: seq<nat>, keys: seq<nat>)
    requires GenerationDraws(count, rolls, keys) && GeneratedPrefix(qs, topic, difficulty, count, rolls, keys)
    requires k < count && |qs| == BatchOffset(b, count) + k && diff == DrawnDifficulty(difficulty, rolls, |qs|)
    ensures GeneratedPrefix(qs + [MakeQuestion(b, k, topic, diff, keys[k])], topic, difficulty, count, rolls, keys)
  {
    var r := qs + [MakeQuestion(b, k, topic, diff, keys[k])];
    forall j | 0 <= j < |r| ensures r[j] == GeneratedAt(topic, difficulty, count, rolls, keys, j) {
      if j < |qs| {
        assert r[j] == qs[j];
      } else {
        assert Position(count, j) == (b, k);
      }
    }
  }

  /** The whole generated list is the only prefix of its length. */
  lemma GeneratedComplete(qs: seq<Question>, topic: string, difficulty: string, count: nat, rolls: seq<nat>, keys: seq<nat>)
    requires GenerationDraws(count, rolls, keys) && GeneratedPrefix(qs, topic, difficulty, count, rolls, keys)
    requires |qs| == 4 * count
    ensures qs == MockQuestions(topic, difficulty, count, rolls, keys)
  {
  }

  /**
   * `generateMockQuestions`: four loops, one per batch, each pushing `count` questions.
   */
  method GenerateMockQuestions(topic: string, difficulty: string, count: nat, rolls: seq<nat>, keys: seq<nat>)
    returns (questions: seq<Question>)
    requires GenerationDraws(count, rolls, keys)
    ensures questions == MockQuestions(topic, difficulty, count, rolls, keys)
  {
    questions := [];
    for i := 0 to count
      invariant |questions| == i && GeneratedPrefix(questions, topic, difficulty, count, rolls, keys)
    {
      var diff := if difficulty != "" then difficulty else Difficulties[rolls[i]];
      PushTemplate(questions, McqBatch, i, diff, topic, difficulty, count, rolls, keys);
      questions := questions + [MakeQuestion(McqBatch, i, topic, diff, keys[i])];
    }
    for i := 0 to count
      invariant |questions| == count + i && GeneratedPrefix(questions, topic, difficulty, count, rolls, keys)
    {
      var diff := if difficulty != "" then difficulty else Difficulties[rolls[count + i]];
      PushTemplate(questions, ShortBatch, i, diff, topic, difficulty, count, rolls, keys);
      questions := questions + [MakeQuestion(ShortBatch, i, topic, diff, keys[i])];
    }
    for i := 0 to count
      invariant |questions| == 2 * count + i && GeneratedPrefix(questions, topic, difficulty, count, rolls, keys)
    {
      var diff := if difficulty != "" then difficulty else Difficulties[rolls[2 * count + i]];
      PushTemplate(questions, LongBatch, i, diff, topic, difficulty, count, rolls, keys);
      questions := questions + [MakeQuestion(LongBatch, i, topic, diff, keys[i])];
    }
    for i := 0 to count
      invariant |questions| == 3 * count + i && GeneratedPrefix(questions, topic, difficulty, count, rolls, keys)
    {
      var diff := if difficulty != "" then difficulty else Difficulties[rolls[3 * count + i]];
      PushTemplate(questions, FillBatch, i, diff, topic, difficulty, count, rolls, keys);
      questions := questions + [MakeQuestion(FillBatch, i, topic, diff, keys[i])];
    }
    GeneratedComplete(questions, topic, difficulty, count, rolls, keys);
  }

  // ---------------------------------------------------------------------------------------------
  // The generated answer keys
  // ---------------------------------------------------------------------------------------------

  /** A text question whose model answer yields keywords accepts its own model answer. */
  lemma ModelAnswerAccepted(q: Question)
    requires (q.kind.ShortAnswer? || q.kind.LongAnswer?) && ExtractKeywords(q.kind.modelAnswer) != []
    ensures CheckAnswer(q, Written(q.kind.modelAnswer))
  {
    var k := ExtractKeywords(q.kind.modelAnswer)[0];
    LowerKeepsContains(q.kind.modelAnswer, k);
  }

  /** A fill-in-the-blank question with a list of fragments accepts each fragment on its own. */
  lemma FragmentAccepted(q: Question, f: string)
    requires q.kind.FillBlank? && q.kind.key.AnyOf? && f in q.kind.key.fragments
    ensures CheckAnswer(q, Written(f))
  {
    ContainsSelf(Lower(f));
  }

  /** The model answer of every generated short-answer question. */
  function ShortModel(topic: string): string
  {
    "A key aspect of " + topic + " is..."
  }

  /** The letters of the words the short-answer template starts with. */
  lemma TemplateWords()
    ensures NoSpace("A") && NoSpace("key") && NoSpace("aspect")
    ensures Lower("aspect") == "aspect" && IsKeyword("aspect")
  {
    LettersNoSpace("A");
    LettersNoSpace("key");
    LettersNoSpace("aspect");
    LowerUnchanged("aspect");
  }

  /** The model answer splits into "A", "key", "aspect" and then whatever the topic contributes. */
  lemma ShortModelFields(topic: string)
    ensures var r := "of " + topic + " is...";
      SplitWs(ShortModel(topic)) == ["A", "key", "aspect"] + SplitWs(r[LeadingSpaces(r)..])
  {
    var r := "of " + topic + " is...";
    assert ShortModel(topic) == "A" + " " + ("key" + " " + ("aspect" + " " + r));
    TemplateWords();
    ThreeWords("A", "key", "aspect", r);
  }

  /** "A" and "key" are too short to be keywords, "aspect" is one. */
  lemma AspectFirstKeyword(tail: seq<string>)
    ensures Qualifying(["A", "key", "aspect"] + tail) == ["aspect"] + Qualifying(tail)
  {
    TemplateWords();
    assert !IsKeyword("A") && !IsKeyword("key") by {
      assert Utf16Length("A") == 1;
      assert Utf16Length("key") == 3;
    }
    calc {
      Qualifying(["A", "key", "aspect"] + tail);
      { assert ["A", "key", "aspect"] + tail == ["A"] + (["key", "aspect"] + tail);
        QualifyingCons("A", ["key", "aspect"] + tail); }
      Qualifying(["key", "aspect"] + tail);
      { assert ["key", "aspect"] + tail == ["key"] + (["aspect"] + tail);
        QualifyingCons("key", ["aspect"] + tail); }
      Qualifying(["aspect"] + tail);
      { QualifyingCons("aspect", tail); }
      ["aspect"] + Qualifying(tail);
    }
  }

  /** The filter on a list with a given head. */
  lemma QualifyingCons(w: string, tail: seq<string>)
    ensures Qualifying([w] + tail) == if IsKeyword(w) then [w] + Qualifying(tail) else Qualifying(tail)
  {
    assert ([w] + tail)[0] == w && ([w] + tail)[1..] == tail;
  }

  /**
   * The first keyword of every generated short-answer question is "aspect", whatever the topic,
   * so any answer containing "aspect" in any letter case is accepted.
   */
  lemma ShortAnswerKeyword(topic: string, k: nat, diff: string, key: nat, t: string)
    requires Contains(Lower(t), "aspect")
    ensures var q := MakeQuestion(ShortBatch, k, topic, diff, key);
      ExtractKeywords(q.kind.modelAnswer) != [] && ExtractKeywords(q.kind.modelAnswer)[0] == "aspect"
      && CheckAnswer(q, Written(t))
  {
    var q := MakeQuestion(ShortBatch, k, topic, diff, key);
    var m := ShortModel(topic);
    assert q.kind.modelAnswer == m;
    var ks := ExtractKeywords(m);
    assert ks != [] && ks[0] == "aspect" by {
      var r := "of " + topic + " is...";
      ShortModelFields(topic);
      AspectFirstKeyword(SplitWs(r[LeadingSpaces(r)..]));
    }
    TemplateWords();
    assert "aspect" in ks;
  }

  /** The generated fill-in-the-blank key accepts "the important principle here". */
  lemma FillExampleAccepted()
    ensures CheckAnswer(Question("fill-0", FillBlank(AnyOf(FillFragments)), "medium", 2), Written("the important principle here"))
  {
    var f1 := FillFragments[1];
    AcceptedSentenceContains();
    LowerKeepsContains("the important principle here", f1);
    assert f1 in FillFragments;
  }

  /** "important principle" sits at offset 4 of "the important principle here". */
  lemma AcceptedSentenceContains()
    ensures Contains("the important principle here", "important principle")
  {
    var f1 := "important principle";
    var yes := "the important principle here";
    assert yes == "the " + f1 + " here";
    ContainsMiddle("the ", f1, " here");
  }

  /** The generated fill-in-the-blank key rejects "nothing relevant". */
  lemma FillExampleRejected()
    ensures !CheckAnswer(Question("fill-0", FillBlank(AnyOf(FillFragments)), "medium", 2), Written("nothing relevant"))
  {
    var no := "nothing relevant";
    RejectedFillFacts();
    NotContainsLonger(Lower(no), Lower(FillFragments[1]));
    NotContainsFirstChar(Lower(no), Lower(FillFragments[0]));
  }

  /** "nothing relevant" is shorter than "important principle" and has no letter k, which "key concept" starts with. */
  lemma RejectedFillFacts()
    ensures |Lower("important principle")| == 19 && |Lower("nothing relevant")| == 16
    ensures Lower("key concept")[0] == 'k' && 'k' !in Lower("nothing relevant")
  {
    LowerUnchanged("nothing relevant");
  }

  // ---------------------------------------------------------------------------------------------
  // Fisher-Yates shuffle
  // ---------------------------------------------------------------------------------------------

  /** `[s[i], s[j]] = [s[j], s[i]]`. */
  function Swap(s: seq<Question>, i: nat, j: nat): (r: seq<Question>)
    requires i < |s| && j < |s|
    ensures |r| == |s|
  {
    s[i := s[j]][j := s[i]]
  }

  /** The shuffle's random draws: `js[i]` is the `j` drawn when the loop is at `i`, so `js[i] <= i`. */
  predicate SwapChoices(js: seq<nat>, n: nat)
  {
    |js| == n && forall i :: 0 <= i < n ==> js[i] <= i
  }

  /** The steps of the descending loop from `i` down to 1, applied to `s`. */
  function ShuffleFrom(s: seq<Question>, js: seq<nat>, i: nat): (r: seq<Question>)
    requires SwapChoices(js, |s|) && i < |s|
    ensures |r| == |s|
    decreases i
  {
    if i == 0 then s else ShuffleFrom(Swap(s, i, js[i]), js, i - 1)
  }

  /** The shuffle only swaps: it keeps the multiset of questions, unique ids and the total of points. */
  lemma {:induction false} ShufflePermutes(s: seq<Question>, js: seq<nat>, i: nat)
    requires SwapChoices(js, |s|) && i < |s|
    ensures multiset(ShuffleFrom(s, js, i)) == multiset(s)
    ensures UniqueIds(s) ==> UniqueIds(ShuffleFrom(s, js, i))
    ensures TotalPoints(ShuffleFrom(s, js, i)) == TotalPoints(s)
    decreases i
  {
    if i == 0 {
      ShuffleFromZero(s, js);
    } else {
      var t := Swap(s, i, js[i]);
      ShufflePermutes(t, js, i - 1);
      ShuffleFromStep(s, js, i, t);
    }
  }

  lemma ShuffleFromZero(s: seq<Question>, js: seq<nat>)
    requires SwapChoices(js, |s|) && 0 < |s|
    ensures ShuffleFrom(s, js, 0) == s
    ensures multiset(ShuffleFrom(s, js, 0)) == multiset(s)
    ensures UniqueIds(s) ==> UniqueIds(ShuffleFrom(s, js, 0))
    ensures TotalPoints(ShuffleFrom(s, js, 0)) == TotalPoints(s)
  {
  }

  /** One swap, then the remaining steps: what the remaining steps keep, the whole keeps. */
  lemma ShuffleFromStep(s: seq<Question>, js: seq<nat>, i: nat, t: seq<Question>)
    requires SwapChoices(js, |s|) && 0 < i < |s| && t == Swap(s, i, js[i])
    requires
      && multiset(ShuffleFrom(t, js, i - 1)) == multiset(t)
      && (UniqueIds(t) ==> UniqueIds(ShuffleFrom(t, js, i - 1)))
      && TotalPoints(ShuffleFrom(t, js, i - 1)) == TotalPoints(t)
    ensures multiset(ShuffleFrom(s, js, i)) == multiset(s)
    ensures UniqueIds(s) ==> UniqueIds(ShuffleFrom(s, js, i))
    ensures TotalPoints(ShuffleFrom(s, js, i)) == TotalPoints(s)
  {
    assert ShuffleFrom(s, js, i) == ShuffleFrom(t, js, i - 1);
    SwapPermutes(s, i, js[i]);
  }

  /** The loop of `shuffleQuestions` at `i`: finishing the steps from `i` down turns `cur` into `target`. */
  predicate ShuffledSoFar(cur: seq<Question>, js: seq<nat>, i: nat, target: seq<Question>)
  {
    SwapChoices(js, |cur|) && i < |cur| && ShuffleFrom(cur, js, i) == target
  }

  /** One step of the loop: swapping at `i` and going on from `i - 1` is going on from `i`. */
  lemma ShuffleStep(s: seq<Question>, t: seq<Question>, js: seq<nat>, i: nat, target: seq<Question>)
    requires ShuffledSoFar(s, js, i, target) && 0 < i
    requires |t| == |s| && t[i] == s[js[i]] && t[js[i]] == s[i]
    requires forall k :: 0 <= k < |s| && k != i && k != js[i] ==> t[k] == s[k]
    ensures ShuffledSoFar(t, js, i - 1, target)
  {
    assert t == Swap(s, i, js[i]);
  }

  /** The loop starts at the last index with the whole shuffle ahead of it. */
  lemma ShuffleStart(s: seq<Question>, js: seq<nat>)
    requires SwapChoices(js, |s|) && |s| > 0
    ensures ShuffledSoFar(s, js, |s| - 1, FisherYates(s, js))
  {
  }

  /** At index 0 nothing is left to do. */
  lemma ShuffleDone(s: seq<Question>, js: seq<nat>, target: seq<Question>)
    requires ShuffledSoFar(s, js, 0, target)
    ensures s == target
  {
  }

  /** `shuffleQuestions` applied to the list `s` with the draws `js`. */
  function FisherYates(s: seq<Question>, js: seq<nat>): (r: seq<Question>)
    requires SwapChoices(js, |s|)
    ensures |r| == |s| && multiset(r) == multiset(s)
    ensures UniqueIds(s) ==> UniqueIds(r)
    ensures TotalPoints(r) == TotalPoints(s)
  {
    if |s| == 0 then s else ShufflePermutes(s, js, |s| - 1); ShuffleFrom(s, js, |s| - 1)
  }

  /** A swap keeps the multiset of questions, the uniqueness of ids and the total of points. */
  lemma SwapPermutes(s: seq<Question>, i: nat, j: nat)
    requires i < |s| && j < |s|
    ensures multiset(Swap(s, i, j)) == multiset(s)
    ensures UniqueIds(s) ==> UniqueIds(Swap(s, i, j))
    ensures TotalPoints(Swap(s, i, j)) == TotalPoints(s)
  {
    SwapMultiset(s, i, j);
    if UniqueIds(s) {
      SwapUniqueIds(s, i, j);
    }
    SameMultisetSamePoints(Swap(s, i, j), s);
  }

  lemma SwapMultiset(s: seq<Question>, i: nat, j: nat)
    requires i < |s| && j < |s|
    ensures multiset(Swap(s, i, j)) == multiset(s)
  {
    assert Swap(s, i, j) == s[i := s[j]][j := s[i]];
  }

  /** Where each element of a swapped list comes from. */
  lemma SwapAt(s: seq<Question>, i: nat, j: nat, a: nat) returns (a': nat)
    requires i < |s| && j < |s| && a < |s|
    ensures a' < |s| && Swap(s, i, j)[a] == s[a']
    ensures a' == (if a == i then j else if a == j then i else a)
  {
    a' := if a == i then j else if a == j then i else a;
  }

  lemma SwapUniqueIds(s: seq<Question>, i: nat, j: nat)
    requires i < |s| && j < |s| && UniqueIds(s)
    ensures UniqueIds(Swap(s, i, j))
  {
    var r := Swap(s, i, j);
    forall a, b | 0 <= a < |r| && 0 <= b < |r| && a != b ensures r[a].id != r[b].id {
      var a' := SwapAt(s, i, j, a);
      var b' := SwapAt(s, i, j, b);
    }
  }

  /** The total of points depends only on the multiset of questions. */
  lemma {:induction false} SameMultisetSamePoints(a: seq<Question>, b: seq<Question>)
    requires multiset(a) == multiset(b)
    ensures TotalPoints(a) == TotalPoints(b)
    decreases |a|
  {
    if a == [] {
      assert b == [] by { assert |b| == |multiset(b)|; }
    } else {
      var x := a[0];
      assert x in multiset(b);
      var k :| 0 <= k < |b| && b[k] == x;
      var b' := b[..k] + b[k + 1..];
      RemoveMatching(a, b, k);
      assert b == b[..k] + [x] + b[k + 1..];
      SameMultisetSamePoints(a[1..], b');
      TotalPointsAppend(b[..k] + [x], b[k + 1..]);
      TotalPointsAppend(b[..k], [x]);
      TotalPointsAppend(b[..k], b[k + 1..]);
    }
  }

  /** Taking the same element out of two lists with equal multisets leaves equal multisets. */
  lemma RemoveMatching<T>(a: seq<T>, b: seq<T>, k: nat)
    requires multiset(a) == multiset(b) && a != [] && k < |b| && b[k] == a[0]
    ensures multiset(a[1..]) == multiset(b[..k] + b[k + 1..])
  {
    assert b == b[..k] + [b[k]] + b[k + 1..];
    assert a == [a[0]] + a[1..];
    assert multiset(b) == multiset(b[..k]) + multiset{b[k]} + multiset(b[k + 1..]);
    assert multiset(a) == multiset{a[0]} + multiset(a[1..]);
    assert multiset(b[..k] + b[k + 1..]) == multiset(b[..k]) + multiset(b[k + 1..]);
    assert multiset(a[1..]) == multiset(a) - multiset{a[0]};
  }

  /** The draws `js[i] == i` swap every element with itself and leave the list as it was. */
  lemma {:induction false} IdentityDraws(s: seq<Question>, js: seq<nat>, i: nat)
    requires SwapChoices(js, |s|) && i < |s| && forall k :: 0 <= k < |s| ==> js[k] == k
    ensures ShuffleFrom(s, js, i) == s
  {
    if i > 0 {
      assert Swap(s, i, js[i]) == s;
      IdentityDraws(s, js, i - 1);
    }
  }

  /** The shuffled quiz keeps the generated count, the unique ids and, at a fixed difficulty, the total of points. */
  lemma ShuffledQuiz(topic: string, difficulty: string, count: nat, rolls: seq<nat>, keys: seq<nat>, js: seq<nat>)
    requires GenerationDraws(count, rolls, keys) && SwapChoices(js, 4 * count)
    ensures |FisherYates(MockQuestions(topic, difficulty, count, rolls, keys), js)| == 4 * count
    ensures UniqueIds(FisherYates(MockQuestions(topic, difficulty, count, rolls, keys), js))
    ensures multiset(FisherYates(MockQuestions(topic, difficulty, count, rolls, keys), js))
         == multiset(MockQuestions(topic, difficulty, count, rolls, keys))
    ensures difficulty != "" ==>
      TotalPoints(FisherYates(MockQuestions(topic, difficulty, count, rolls, keys), js))
        == count * (PointsFor(McqBatch, difficulty) + PointsFor(ShortBatch, difficulty)
                  + PointsFor(LongBatch, difficulty) + PointsFor(FillBatch, difficulty))
  {
    MockQuestionsUniqueIds(topic, difficulty, count, rolls, keys);
    if difficulty != "" {
      MockQuestionsTotal(topic, difficulty, count, rolls, keys);
    }
  }

  // ---------------------------------------------------------------------------------------------
  // The session object
  // ---------------------------------------------------------------------------------------------

  /** A fresh array holding `s`. */
  method ArrayOf(s: seq<Question>) returns (a: array<Question>)
    ensures fresh(a) && a[..] == s
  {
    a := new Question[|s|](i requires 0 <= i < |s| => s[i]);
  }

  /** Every answer record names a question of the current list. */
  predicate RecordsReferTo(rs: seq<AnswerRecord>, qs: seq<Question>)
  {
    forall r :: r in rs ==> exists k :: 0 <= k < |qs| && qs[k].id == r.questionId
  }

  /** Answer records of wrong answers carry no points. */
  predicate WrongScoresZero(rs: seq<AnswerRecord>)
  {
    forall r :: r in rs ==> r.isCorrect || r.points == 0
  }

  /**
   * The descending Fisher-Yates loop of `shuffleQuestions` on the array `a`: at step `i` it
   * swaps `a[i]` with `a[js[i]]`.
   */
  method ShuffleArray(a: array<Question>, js: seq<nat>)
    requires SwapChoices(js, a.Length)
    modifies a
    ensures a[..] == FisherYates(old(a[..]), js)
  {
    if a.Length == 0 {
      return;
    }
    ghost var original := a[..];
    ghost var target := FisherYates(original, js);
    ShuffleStart(original, js);
    ghost var cur := original;
    var i := a.Length - 1;
    while i > 0
      invariant 0 <= i
      invariant a[..] == cur
      invariant ShuffledSoFar(cur, js, i, target)
      decreases i
    {
      var j := js[i];
      ghost var before := cur;
      a[i], a[j] := a[j], a[i];
      cur := a[..];
      ShuffleStep(before, cur, js, i, target);
      i := i - 1;
    }
    ShuffleDone(cur, js, target);
  }

  /** A permutation of the questions keeps every record's question present. */
  lemma RecordsReferToPermuted(rs: seq<AnswerRecord>, qs: seq<Question>, ps: seq<Question>)
    requires RecordsReferTo(rs, qs) && multiset(ps) == multiset(qs)
    ensures RecordsReferTo(rs, ps)
  {
    forall r | r in rs ensures exists k :: 0 <= k < |ps| && ps[k].id == r.questionId {
      var k :| 0 <= k < |qs| && qs[k].id == r.questionId;
      assert qs[k] in multiset(ps);
      var m :| 0 <= m < |ps| && ps[m] == qs[k];
    }
  }

  /**
   * `QuizGenerator`: the quiz in progress. The countdown is modelled by its remaining seconds
   * and whether the interval is running; `tick` is one firing of the interval.
   */
  class QuizGenerator {
    var questions: array<Question>
    var currentQuestionIndex: int
    var score: int
    var userAnswers: seq<AnswerRecord>
    var timeLeft: int
    var timerRunning: bool
    const quizDuration: int

    /**
     * The session invariant: the index stays on a question (or at 0 when there is none), ids are
     * unique, every record names a current question, and the running score is the sum of the
     * recorded points, wrong answers recording none.
     */
    predicate Valid()
      reads this, questions
    {
      && quizDuration == 300
      && 0 <= currentQuestionIndex
      && (currentQuestionIndex < questions.Length || currentQuestionIndex == 0)
      && UniqueIds(questions[..])
      && RecordsReferTo(userAnswers, questions[..])
      && WrongScoresZero(userAnswers)
      && score == SumPoints(userAnswers)
      && 0 <= timeLeft <= quizDuration
      && (timerRunning ==> timeLeft > 0)
    }

    constructor ()
      ensures Valid() && fresh(questions)
      ensures questions.Length == 0 && currentQuestionIndex == 0 && score == 0 && userAnswers == []
      ensures timeLeft == 0 && !timerRunning
    {
      questions := new Question[0];
      currentQuestionIndex := 0;
      score := 0;
      userAnswers := [];
      timeLeft := 0;
      timerRunning := false;
      quizDuration := 300;
    }

    /**
     * `generateQuiz`: clear the session, build the templated questions, shuffle them in place
     * and start the countdown. `rolls`, `keys` and `js` are the random draws.
     */
    method GenerateQuiz(topic: string, difficulty: string, count: nat, rolls: seq<nat>, keys: seq<nat>, js: seq<nat>)
      returns (result: seq<Question>)
      requires Valid() && GenerationDraws(count, rolls, keys) && SwapChoices(js, 4 * count)
      modifies this
      ensures Valid() && fresh(questions)
      ensures result == questions[..] == FisherYates(MockQuestions(topic, difficulty, count, rolls, keys), js)
      ensures currentQuestionIndex == 0 && score == 0 && userAnswers == []
      ensures timeLeft == quizDuration && timerRunning
    {
      currentQuestionIndex := 0;
      score := 0;
      userAnswers := [];
      var generated := GenerateMockQuestions(topic, difficulty, count, rolls, keys);
      MockQuestionsUniqueIds(topic, difficulty, count, rolls, keys);
      questions := ArrayOf(generated);
      ShuffleQuestions(js);
      timeLeft := quizDuration;
      timerRunning := true;
      result := questions[..];
    }

    /** `shuffleQuestions`: the descending Fisher-Yates loop; `js[i]` is the index drawn at step `i`. */
    method ShuffleQuestions(js: seq<nat>)
      requires Valid() && SwapChoices(js, questions.Length)
      modifies questions
      ensures Valid()
      ensures questions[..] == FisherYates(old(questions[..]), js)
    {
      ghost var original := questions[..];
      ShuffleArray(questions, js);
      RecordsReferToPermuted(userAnswers, original, questions[..]);
    }

    /**
     * `submitAnswer`: grade the answer against the first question with that id, record it and
     * add the points when correct. An unknown id is refused and nothing changes.
     */
    method SubmitAnswer(id: string, answer: Answer) returns (isCorrect: bool)
      requires Valid()
      requires IndexOfId(questions[..], id).Some? ==> Gradable(questions[IndexOfId(questions[..], id).value], answer)
      modifies this`score, this`userAnswers
      ensures Valid()
      ensures IndexOfId(questions[..], id).None? ==>
        !isCorrect && score == old(score) && userAnswers == old(userAnswers)
      ensures IndexOfId(questions[..], id).Some? ==>
        var q := questions[IndexOfId(questions[..], id).value];
        var earned := if isCorrect then q.points else 0;
        && isCorrect == CheckAnswer(q, answer)
        && userAnswers == old(userAnswers) + [AnswerRecord(id, answer, isCorrect, earned)]
        && score == old(score) + earned
    {
      var found := IndexOfId(questions[..], id);
      if found.None? {
        return false;
      }
      var q := questions[found.value];
      isCorrect := CheckAnswer(q, answer);
      var record := AnswerRecord(id, answer, isCorrect, if isCorrect then q.points else 0);
      AppendRecord(userAnswers, record);
      userAnswers := userAnswers + [record];
      if isCorrect {
        score := score + q.points;
      }
    }

    /** `getCurrentQuestion`: the question at the index; `undefined` when there are no questions. */
    function GetCurrentQuestion(): (r: Option<Question>)
      requires Valid()
      reads this, questions
      ensures r.Some? <==> questions.Length > 0
      ensures r.Some? ==> r.value == questions[currentQuestionIndex]
    {
      if currentQuestionIndex < questions.Length then Some(questions[currentQuestionIndex]) else None
    }

    /** `nextQuestion`: advance unless at the last question, which answers `null`. */
    method NextQuestion() returns (r: Option<Question>)
      requires Valid()
      modifies this`currentQuestionIndex
      ensures Valid()
      ensures old(currentQuestionIndex) < questions.Length - 1 ==>
        currentQuestionIndex == old(currentQuestionIndex) + 1 && r == Some(questions[currentQuestionIndex])
      ensures old(currentQuestionIndex) >= questions.Length - 1 ==>
        currentQuestionIndex == old(currentQuestionIndex) && r.None?
    {
      if currentQuestionIndex < questions.Length - 1 {
        currentQuestionIndex := currentQuestionIndex + 1;
        r := GetCurrentQuestion();
      } else {
        r := None;
      }
    }

    /** `previousQuestion`: step back unless at the first question, which answers `null`. */
    method PreviousQuestion() returns (r: Option<Question>)
      requires Valid()
      modifies this`currentQuestionIndex
      ensures Valid()
      ensures old(currentQuestionIndex) > 0 ==>
        currentQuestionIndex == old(currentQuestionIndex) - 1 && r == Some(questions[currentQuestionIndex])
      ensures old(currentQuestionIndex) == 0 ==> currentQuestionIndex == 0 && r.None?
    {
      if currentQuestionIndex > 0 {
        currentQuestionIndex := currentQuestionIndex - 1;
        r := GetCurrentQuestion();
      } else {
        r := None;
      }
    }

    /**
     * `getScore`: the running score, the total of all points, the number of correct records and
     * the number of questions. The running score is always the points of the correct answers.
     */
    function GetScore(): (r: ScoreReport)
      requires Valid()
      reads this, questions
      ensures r.score == CorrectPoints(userAnswers)
      ensures r.total == TotalPoints(questions[..]) && r.totalQuestions == questions.Length
      ensures r.correct == CorrectCount(userAnswers) <= |userAnswers|
    {
      SumPointsIsCorrectPoints(userAnswers);
      ScoreReport(score, TotalPoints(questions[..]), CorrectCount(userAnswers), questions.Length)
    }

    /** `resetQuiz`: stop the countdown and clear questions, index, score and answers. */
    method ResetQuiz()
      requires Valid()
      modifies this
      ensures Valid() && fresh(questions)
      ensures questions.Length == 0 && currentQuestionIndex == 0 && score == 0 && userAnswers == []
      ensures !timerRunning && timeLeft == old(timeLeft)
    {
      timerRunning := false;
      questions := new Question[0];
      currentQuestionIndex := 0;
      score := 0;
      userAnswers := [];
    }

    /** One firing of the countdown interval: one second less, stopping at zero. */
    method Tick()
      requires Valid() && timerRunning
      modifies this`timeLeft, this`timerRunning
      ensures Valid()
      ensures timeLeft == old(timeLeft) - 1 && (timerRunning <==> timeLeft > 0)
    {
      timeLeft := timeLeft - 1;
      if timeLeft <= 0 {
        timerRunning := false;
      }
    }
  }

  /**
   * Submitting a correct answer to the same question twice records it twice and adds its points
   * twice: nothing in `submitAnswer` remembers which questions were answered.
   */
  method SubmitTwice(quiz: QuizGenerator, k: nat, answer: Answer)
    requires quiz.Valid() && k < quiz.questions.Length
    requires Gradable(quiz.questions[k], answer) && CheckAnswer(quiz.questions[k], answer)
    modifies quiz`score, quiz`userAnswers
    ensures quiz.Valid()
    ensures quiz.score == old(quiz.score) + 2 * quiz.questions[k].points
    ensures |quiz.userAnswers| == |old(quiz.userAnswers)| + 2
  {
    IndexOfOwnId(quiz.questions[..], k);
    var first := quiz.SubmitAnswer(quiz.questions[k].id, answer);
    var second := quiz.SubmitAnswer(quiz.questions[k].id, answer);
  }
}
