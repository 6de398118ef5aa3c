/** wrap of examples/p2p-tui.js: greedy word wrap of every line of a text. */
module Wrap {

  // ----- String.split and Array.join on one character -----

  function Split(s: string, sep: char): (parts: seq<string>)
    ensures parts != []
  {
    if s == "" then [""] else Prepend(s[0], Split(s[1..], sep), sep)
  }

  function Prepend(c: char, parts: seq<string>, sep: char): (r: seq<string>)
    requires parts != []
    ensures r != []
  {
    if c == sep then [""] + parts else [[c] + parts[0]] + parts[1..]
  }

  lemma PrependAppend(c: char, a: seq<string>, b: seq<string>, sep: char)
    requires a != []
    ensures Prepend(c, a + b, sep) == Prepend(c, a, sep) + b
  {
    assert (a + b)[1..] == a[1..] + b;
  }

  function Join(parts: seq<string>, sep: char): string {
    if parts == [] then ""
    else if |parts| == 1 then parts[0]
    else parts[0] + [sep] + Join(parts[1..], sep)
  }

  lemma {:induction false} SplitNone(s: string, sep: char)
    requires sep !in s
    ensures Split(s, sep) == [s]
  {
    if s != "" {
      SplitNone(s[1..], sep);
      assert [s[0]] + s[1..] == s;
    }
  }

  /** The parts hold no separator, and no character that s does not hold. */
  lemma {:induction false} SplitFree(s: string, sep: char, c: char)
    ensures forall i | 0 <= i < |Split(s, sep)| :: sep !in Split(s, sep)[i]
    ensures c !in s ==> forall i | 0 <= i < |Split(s, sep)| :: c !in Split(s, sep)[i]
  {
    if s != "" {
      SplitFree(s[1..], sep, c);
      var rest := Split(s[1..], sep);
      forall i | 0 <= i < |Split(s, sep)|
        ensures sep !in Split(s, sep)[i] && (c !in s ==> c !in Split(s, sep)[i])
      {
        if s[0] == sep {
          assert Split(s, sep)[i] == if i == 0 then "" else rest[i - 1];
        } else {
          assert Split(s, sep)[i] == if i == 0 then [s[0]] + rest[0] else rest[i];
        }
      }
    }
  }

  lemma {:induction false} SplitAppend(s: string, t: string, sep: char)
    ensures Split(s + [sep] + t, sep) == Split(s, sep) + Split(t, sep)
  {
    var all := s + [sep] + t;
    if s == "" {
      assert all == [sep] + t;
      assert all[1..] == t;
    } else {
      hide Prepend;
      SplitAppend(s[1..], t, sep);
      assert all[0] == s[0] && all[1..] == s[1..] + [sep] + t;
      PrependAppend(s[0], Split(s[1..], sep), Split(t, sep), sep);
    }
  }

  lemma {:induction false} JoinSplit(s: string, sep: char)
    ensures Join(Split(s, sep), sep) == s
  {
    if s != "" {
      JoinSplit(s[1..], sep);
      var rest := Split(s[1..], sep);
      if s[0] == sep {
        assert ([""] + rest)[1..] == rest;
      } else if |rest| > 1 {
        assert ([[s[0]] + rest[0]] + rest[1..])[1..] == rest[1..];
        assert [s[0]] + rest[0] + [sep] + Join(rest[1..], sep) == [s[0]] + (rest[0] + [sep] + Join(rest[1..], sep));
      }
    }
  }

  function Flatten<T>(ss: seq<seq<T>>): seq<T> {
    if ss == [] then [] else ss[0] + Flatten(ss[1..])
  }

  function SplitAll(parts: seq<string>, sep: char): seq<string> {
    if parts == [] then [] else Split(parts[0], sep) + SplitAll(parts[1..], sep)
  }

  lemma {:induction false} SplitJoin(parts: seq<string>, sep: char)
    requires parts != []
    ensures Split(Join(parts, sep), sep) == SplitAll(parts, sep)
  {
    if |parts| > 1 {
      SplitJoin(parts[1..], sep);
      SplitAppend(parts[0], Join(parts[1..], sep), sep);
    } else {
      assert parts[1..] == [];
      assert Split(parts[0], sep) + [] == Split(parts[0], sep);
    }
  }

  // ----- one line -----

  /** The loop of wrap from a current line and the words still to come. */
  function Lines(cur: string, words: seq<string>, w: nat): (out: seq<string>)
    ensures out != []
    decreases |words|
  {
    if words == [] then [cur]
    else if cur != "" && |cur + " " + words[0]| > w then [cur] + Lines(words[0], words[1..], w)
    else Lines(if cur != "" then cur + " " + words[0] else words[0], words[1..], w)
  }

  method WrapLine(line: string, w: nat) returns (out: seq<string>)
    ensures out == Lines("", Split(line, ' '), w)
  {
    var words := Split(line, ' ');
    out := [];
    var cur := "";
    for i := 0 to |words|
      invariant out + Lines(cur, words[i..], w) == Lines("", words, w)
    {
      var word := words[i];
      ghost var rest := Lines(cur, words[i..], w);
      assert words[i..][1..] == words[i + 1..];
      if cur != "" && |cur + " " + word| > w {
        assert out + rest == (out + [cur]) + Lines(word, words[i + 1..], w);
        out := out + [cur];
        cur := word;
      } else {
        cur := if cur != "" then cur + " " + word else word;
      }
    }
    out := out + [cur];
  }

  /** No line is wider than w, unless it is a single word that is too long by itself. */
  lemma {:induction false} LinesFit(cur: string, words: seq<string>, w: nat, l: string)
    requires l in Lines(cur, words, w)
    ensures |l| <= w || l == cur || l in words
    decreases |words|
  {
    if words != [] {
      var wraps := cur != "" && |cur + " " + words[0]| > w;
      var next := if wraps || cur == "" then words[0] else cur + " " + words[0];
      assert words == [words[0]] + words[1..];
      if l in Lines(next, words[1..], w) {
        LinesFit(next, words[1..], w, l);
      }
    }
  }

  function NonEmpty(words: seq<string>): seq<string> {
    if words == [] then []
    else NonEmpty(words[..|words| - 1]) + if words[|words| - 1] == "" then [] else [words[|words| - 1]]
  }

  lemma {:induction false} NonEmptyAppend(a: seq<string>, b: seq<string>)
    ensures NonEmpty(a + b) == NonEmpty(a) + NonEmpty(b)
  {
    if b == [] {
      assert a + b == a;
    } else {
      var n := |b| - 1;
      NonEmptyAppend(a, b[..n]);
      assert (a + b)[..|a + b| - 1] == a + b[..n];
    }
  }

  lemma SplitAllCons(part: string, parts: seq<string>, sep: char)
    ensures SplitAll([part] + parts, sep) == Split(part, sep) + SplitAll(parts, sep)
  {
    assert ([part] + parts)[1..] == parts;
  }

  lemma Assoc(a: seq<string>, b: seq<string>, c: seq<string>)
    ensures a + (b + c) == a + b + c && a + [] == a && [] + a == a
  {
  }

  /** One turn of the loop with a current line. */
  lemma LinesStep(cur: string, words: seq<string>, w: nat)
    requires cur != "" && words != []
    ensures Lines(cur, words, w) ==
            if |cur + " " + words[0]| > w then [cur] + Lines(words[0], words[1..], w)
            else Lines(cur + " " + words[0], words[1..], w)
  {
  }

  lemma LinesStart(words: seq<string>, w: nat)
    requires words != []
    ensures Lines("", words, w) == Lines(words[0], words[1..], w)
  {
  }

  lemma NothingSplit()
    ensures NonEmpty(Split("", ' ')) == [] && NonEmpty([]) == [] && SplitAll([], ' ') == []
  {
    assert Split("", ' ')[..0] == [];
  }

  /** The non-empty words of the lines, in order, are those of the current line and of the words to come. */
  lemma {:induction false} LinesKeepWords(cur: string, words: seq<string>, w: nat)
    requires forall i | 0 <= i < |words| :: ' ' !in words[i]
    ensures NonEmpty(SplitAll(Lines(cur, words, w), ' ')) == NonEmpty(Split(cur, ' ')) + NonEmpty(words)
    decreases |words|
  {
    NothingSplit();
    if words == [] {
      SplitAllCons(cur, [], ' ');
      assert Lines(cur, words, w) == [cur] + [];
      Assoc(Split(cur, ' '), [], []);
      Assoc(NonEmpty(Split(cur, ' ')), [], []);
    } else {
      hide Lines, SplitAll, NonEmpty, Split;
      var word, rest := words[0], words[1..];
      var before := NonEmpty(Split(cur, ' '));
      SplitNone(word, ' ');
      assert words == [word] + rest;
      NonEmptyAppend([word], rest);
      Assoc(before, NonEmpty([word]), NonEmpty(rest));
      if cur == "" {
        LinesStart(words, w);
        LinesKeepWords(word, rest, w);
        Assoc(NonEmpty(words), [], []);
      } else {
        LinesStep(cur, words, w);
        if |cur + " " + word| > w {
          LinesKeepWords(word, rest, w);
          var later := Lines(word, rest, w);
          SplitAllCons(cur, later, ' ');
          NonEmptyAppend(Split(cur, ' '), SplitAll(later, ' '));
        } else {
          LinesKeepWords(cur + " " + word, rest, w);
          SplitAppend(cur, word, ' ');
          NonEmptyAppend(Split(cur, ' '), [word]);
        }
      }
    }
  }

  // ----- the fewest lines -----

  /** The words of a line on which single spaces separate them. */
  predicate NoneEmpty(words: seq<string>) {
    forall i | 0 <= i < |words| :: |words[i]| > 0
  }

  function Width(group: seq<string>): nat {
    |Join(group, ' ')|
  }

  /** A group of words that may share a line. */
  predicate Fits(group: seq<string>, w: nat) {
    |group| == 1 || (group != [] && Width(group) <= w)
  }

  /** A legal way to break the words into lines. */
  predicate IsBreak(groups: seq<seq<string>>, words: seq<string>, w: nat) {
    Flatten(groups) == words && forall g | g in groups :: Fits(g, w)
  }

  lemma {:induction false} JoinSnoc(group: seq<string>, word: string)
    requires group != []
    ensures Join(group + [word], ' ') == Join(group, ' ') + " " + word
  {
    if |group| == 1 {
      assert (group + [word])[1..] == [word];
    } else {
      JoinSnoc(group[1..], word);
      assert (group + [word])[1..] == group[1..] + [word];
      var front, back := group[0] + " ", Join(group[1..], ' ');
      assert front + (back + " " + word) == front + back + " " + word;
    }
  }

  lemma {:induction false} WidthGrows(a: seq<string>, b: seq<string>)
    requires a != []
    ensures Width(a) <= Width(a + b)
  {
    if b == [] {
      assert a + b == a;
    } else {
      var n := |b| - 1;
      WidthGrows(a, b[..n]);
      JoinSnoc(a + b[..n], b[n]);
      assert a + b == (a + b[..n]) + [b[n]];
    }
  }

  /** How many lines the loop makes of the words to come when the current line is n wide. */
  function Count(n: nat, words: seq<string>, w: nat): nat
    decreases |words|
  {
    if words == [] then 1
    else if n + 1 + |words[0]| > w then 1 + Count(|words[0]|, words[1..], w)
    else Count(n + 1 + |words[0]|, words[1..], w)
  }

  lemma {:induction false} LinesCount(cur: string, words: seq<string>, w: nat)
    requires |cur| > 0 && NoneEmpty(words)
    ensures |Lines(cur, words, w)| == Count(|cur|, words, w)
    decreases |words|
  {
    if words != [] {
      var next := if |cur + " " + words[0]| > w then words[0] else cur + " " + words[0];
      LinesCount(next, words[1..], w);
    }
  }

  /** The greedy choice stays ahead: a narrower current line never needs more lines, and a wider one at most
      one more. */
  lemma {:induction false} StaysAhead(m: nat, n: nat, words: seq<string>, w: nat)
    requires m <= n
    ensures Count(m, words, w) <= Count(n, words, w) <= Count(m, words, w) + 1
    decreases |words|
  {
    if words != [] {
      var k, rest := |words[0]|, words[1..];
      if n + 1 + k <= w {
        StaysAhead(m + 1 + k, n + 1 + k, rest, w);
      } else if m + 1 + k <= w {
        StaysAhead(k, m + 1 + k, rest, w);
      }
    }
  }

  /** What follows the first line of a break is a break of the rest. */
  lemma RestIsBreak(groups: seq<seq<string>>, cur: seq<string>, words: seq<string>, w: nat)
    requires groups != [] && groups[0] == cur && IsBreak(groups, cur + words, w)
    ensures IsBreak(groups[1..], words, w)
  {
    assert cur + Flatten(groups[1..]) == cur + words;
    assert (cur + words)[|cur|..] == words && (cur + Flatten(groups[1..]))[|cur|..] == Flatten(groups[1..]);
  }

  /** A first line longer than cur holds the next word, and fits with it. */
  lemma FirstLineTakes(groups: seq<seq<string>>, cur: seq<string>, words: seq<string>, w: nat)
    requires cur != [] && words != [] && groups != [] && cur < groups[0] && IsBreak(groups, cur + words, w)
    ensures cur + [words[0]] <= groups[0] && Width(cur + [words[0]]) <= w
  {
    var first, next := groups[0], cur + [words[0]];
    assert first in groups && first + Flatten(groups[1..]) == cur + words;
    assert first[..|cur| + 1] == (cur + words)[..|cur| + 1] == next;
    assert first == next + first[|cur| + 1..];
    WidthGrows(next, first[|cur| + 1..]);
  }

  /** No legal break whose first line begins with the words cur has fewer lines than the loop makes from there. */
  lemma {:induction false} GreedyIsOptimal(groups: seq<seq<string>>, cur: seq<string>, words: seq<string>, w: nat)
    requires cur != [] && groups != [] && cur <= groups[0] && IsBreak(groups, cur + words, w)
    ensures Count(Width(cur), words, w) <= |groups|
    decreases |words|
  {
    hide IsBreak, Join;
    if words != [] {
      var rest, k := words[1..], |words[0]|;
      JoinSnoc(cur, words[0]);
      assert [words[0]] + rest == words;
      if groups[0] == cur {
        RestIsBreak(groups, cur, words, w);
        FirstGroup(groups[1..], words, w);
        JoinOne(words[0]);
        GreedyIsOptimal(groups[1..], [words[0]], rest, w);
        if Width(cur) + 1 + k <= w {
          StaysAhead(k, Width(cur) + 1 + k, rest, w);
        }
      } else {
        FirstLineTakes(groups, cur, words, w);
        assert cur + words == (cur + [words[0]]) + rest;
        GreedyIsOptimal(groups, cur + [words[0]], rest, w);
      }
    }
  }

  lemma JoinOne(word: string)
    ensures Join([word], ' ') == word
  {
  }

  lemma FirstGroup(groups: seq<seq<string>>, words: seq<string>, w: nat)
    requires IsBreak(groups, words, w) && words != []
    ensures groups != [] && [words[0]] <= groups[0]
  {
    assert groups[0] in groups;
  }

  /** On a line whose words are separated by single spaces, no legal break uses fewer lines. */
  lemma FewestLines(words: seq<string>, w: nat, groups: seq<seq<string>>)
    requires words != [] && NoneEmpty(words) && IsBreak(groups, words, w)
    ensures |Lines("", words, w)| <= |groups|
  {
    FirstGroup(groups, words, w);
    assert words == [words[0]] + words[1..];
    LinesCount(words[0], words[1..], w);
    GreedyIsOptimal(groups, [words[0]], words[1..], w);
  }

  /** Each line is one group of words, joined. */
  ghost predicate Joined(groups: seq<seq<string>>, lines: seq<string>) {
    |groups| == |lines| && forall i | 0 <= i < |groups| :: lines[i] == Join(groups[i], ' ')
  }

  lemma JoinedCons(cur: seq<string>, groups: seq<seq<string>>, lines: seq<string>)
    requires Joined(groups, lines)
    ensures Joined([cur] + groups, [Join(cur, ' ')] + lines)
  {
  }

  lemma BreakCons(cur: seq<string>, later: seq<seq<string>>, words: seq<string>, w: nat)
    requires Fits(cur, w) && IsBreak(later, words, w)
    ensures IsBreak([cur] + later, cur + words, w)
  {
    assert ([cur] + later)[1..] == later;
  }

  lemma LastBreak(cur: seq<string>, w: nat)
    requires Fits(cur, w) && Join(cur, ' ') != ""
    ensures IsBreak([cur], cur, w) && Joined([cur], Lines(Join(cur, ' '), [], w))
  {
    BreakCons(cur, [], [], w);
    assert [cur] + [] == [cur] && cur + [] == cur;
  }

  lemma MoveOver(cur: seq<string>, words: seq<string>)
    requires words != []
    ensures [words[0]] + words[1..] == words && cur + words == cur + [words[0]] + words[1..]
  {
  }

  /** And the lines made of such a line are themselves a legal break of its words. */
  lemma {:induction false} LinesAreBreak(cur: seq<string>, words: seq<string>, w: nat)
    returns (groups: seq<seq<string>>)
    requires Fits(cur, w) && |cur[0]| > 0 && NoneEmpty(words)
    ensures IsBreak(groups, cur + words, w) && Joined(groups, Lines(Join(cur, ' '), words, w))
    decreases |words|
  {
    WidthGrows([cur[0]], cur[1..]);
    JoinOne(cur[0]);
    assert [cur[0]] + cur[1..] == cur;
    hide IsBreak, Lines, Join, Joined;
    if words == [] {
      LastBreak(cur, w);
      groups := [cur];
      assert cur + words == cur;
    } else {
      JoinSnoc(cur, words[0]);
      LinesStep(Join(cur, ' '), words, w);
      MoveOver(cur, words);
      if |Join(cur + [words[0]], ' ')| > w {
        JoinOne(words[0]);
        var later := LinesAreBreak([words[0]], words[1..], w);
        BreakCons(cur, later, words, w);
        JoinedCons(cur, later, Lines(words[0], words[1..], w));
        groups := [cur] + later;
      } else {
        groups := LinesAreBreak(cur + [words[0]], words[1..], w);
      }
    }
  }

  // ----- every line, whatever its spaces -----

  function Trim(words: seq<string>): seq<string> {
    if words != [] && words[0] == "" then Trim(words[1..]) else words
  }

  /** A group of words as one line, without the spaces that empty words put in front. */
  function Text(group: seq<string>): string {
    Join(Trim(group), ' ')
  }

  function TextOf(groups: seq<seq<string>>): (lines: seq<string>)
    ensures |lines| == |groups|
  {
    seq(|groups|, k requires 0 <= k < |groups| => Text(groups[k]))
  }

  /** A word may follow on the same line: there is nothing on it yet, or the word fits. */
  predicate MayFollow(group: seq<string>, word: string, w: nat) {
    Text(group) == "" || |Text(group) + " " + word| <= w
  }

  /** Every word of the group may follow those before it. */
  predicate Together(group: seq<string>, w: nat) {
    forall n | 0 < n < |group| :: MayFollow(group[..n], group[n], w)
  }

  /** The groups are the words in order, and a new group begins exactly where the next word may not follow. */
  ghost predicate Greedy(groups: seq<seq<string>>, words: seq<string>, w: nat) {
    && groups != [] && Flatten(groups) == words
    && (forall k | 0 <= k < |groups| :: Together(groups[k], w))
    && forall k | 0 < k < |groups| :: groups[k] != [] && !MayFollow(groups[k - 1], groups[k][0], w)
  }

  lemma {:induction false} TrimSnoc(group: seq<string>, word: string)
    ensures Trim(group + [word]) == if Trim(group) == [] then Trim([word]) else Trim(group) + [word]
    ensures Trim(group) != [] ==> Trim(group)[0] != ""
  {
    if group == [] {
      assert group + [word] == [word];
    } else if group[0] == "" {
      TrimSnoc(group[1..], word);
      assert (group + [word])[1..] == group[1..] + [word];
    }
  }

  lemma TextSnoc(group: seq<string>, word: string)
    ensures Text(group + [word]) == if Text(group) == "" then word else Text(group) + " " + word
  {
    TrimSnoc(group, word);
    if Trim(group) == [] {
      assert [word][1..] == [];
    } else {
      JoinSnoc(Trim(group), word);
      assert Text(group) != "";
    }
  }

  lemma TogetherSnoc(group: seq<string>, word: string, w: nat)
    requires Together(group, w) && (group == [] || MayFollow(group, word, w))
    ensures Together(group + [word], w)
  {
    hide Text;
    var all := group + [word];
    forall n | 0 < n < |all| ensures MayFollow(all[..n], all[n], w) {
      if n < |group| {
        assert all[..n] == group[..n] && MayFollow(group[..n], group[n], w);
      } else {
        assert all[..n] == group;
      }
    }
  }

  lemma GreedyCons(group: seq<string>, later: seq<seq<string>>, words: seq<string>, w: nat)
    requires Together(group, w) && Greedy(later, words, w)
    requires later[0] != [] && !MayFollow(group, later[0][0], w)
    ensures Greedy([group] + later, group + words, w)
  {
    hide Together, MayFollow;
    assert ([group] + later)[1..] == later;
  }

  lemma GreedyOne(group: seq<string>, w: nat)
    requires Together(group, w)
    ensures Greedy([group], group, w) && TextOf([group]) == [Text(group)]
  {
    assert [group][1..] == [];
    assert group + [] == group;
  }

  lemma TextOfCons(group: seq<string>, later: seq<seq<string>>)
    ensures TextOf([group] + later) == [Text(group)] + TextOf(later)
  {
  }

  /** The loop from a line that holds group to the end of the words. */
  lemma {:induction false} LinesGreedy(group: seq<string>, words: seq<string>, w: nat)
    returns (groups: seq<seq<string>>)
    requires Together(group, w)
    ensures Greedy(groups, group + words, w) && group <= groups[0]
    ensures TextOf(groups) == Lines(Text(group), words, w)
    decreases |words|
  {
    hide Together, MayFollow, Text, TextOf, Greedy;
    if words == [] {
      groups := [group];
      GreedyOne(group, w);
      assert group + words == group;
    } else {
      var word, rest := words[0], words[1..];
      TextSnoc(group, word);
      Follows(group, word, w);
      MoveOver(group, words);
      if Text(group) != "" && |Text(group) + " " + word| > w {
        TextSnoc([], word);
        AloneTogether(word, w);
        var later := LinesGreedy([word], rest, w);
        GreedyCons(group, later, words, w);
        TextOfCons(group, later);
        groups := [group] + later;
      } else {
        TogetherSnoc(group, word, w);
        groups := LinesGreedy(group + [word], rest, w);
      }
    }
  }

  lemma AloneTogether(word: string, w: nat)
    ensures Together([word], w) && Text([]) == "" && [] + [word] == [word]
  {
  }

  lemma Follows(group: seq<string>, word: string, w: nat)
    ensures MayFollow(group, word, w) <==> !(Text(group) != "" && |Text(group) + " " + word| > w)
  {
  }

  /** What a line becomes, whatever spaces it has. */
  lemma LineGreedy(line: string, w: nat) returns (groups: seq<seq<string>>)
    ensures Greedy(groups, Split(line, ' '), w) && TextOf(groups) == Lines("", Split(line, ' '), w)
  {
    hide TextOf, Greedy;
    groups := LinesGreedy([], Split(line, ' '), w);
    assert [] + Split(line, ' ') == Split(line, ' ');
  }

  /** What begins the second group may not follow the first. */
  lemma SecondBegins(a: seq<seq<string>>, words: seq<string>, w: nat)
    requires Greedy(a, words, w) && |a[0]| < |words|
    ensures !MayFollow(words[..|a[0]|], words[|a[0]|], w)
  {
    hide Text, MayFollow;
    assert words == a[0] + Flatten(a[1..]);
    assert a[1..][0] == a[1] && Flatten(a[1..]) == a[1] + Flatten(a[1..][1..]);
    assert a[1][0] == words[|a[0]|] && a[0] == words[..|a[0]|];
  }

  lemma FirstGoesOn(b: seq<seq<string>>, words: seq<string>, w: nat, m: nat)
    requires Greedy(b, words, w) && m < |b[0]|
    ensures m < |words| && MayFollow(words[..m], words[m], w)
  {
    hide Text;
    NothingYet();
    assert words == b[0] + Flatten(b[1..]);
    assert words[..m] == b[0][..m] && words[m] == b[0][m];
    assert m > 0 ==> MayFollow(b[0][..m], b[0][m], w);
    assert m == 0 ==> words[..m] == [];
  }

  /** The first group of one greedy choice is not shorter than that of another. */
  lemma FirstNotShorter(a: seq<seq<string>>, b: seq<seq<string>>, words: seq<string>, w: nat)
    requires Greedy(a, words, w) && Greedy(b, words, w)
    ensures |a[0]| >= |b[0]|
  {
    if |a[0]| < |b[0]| {
      FirstGoesOn(b, words, w, |a[0]|);
      SecondBegins(a, words, w);
    }
  }

  lemma NothingYet()
    ensures Text([]) == ""
  {
  }

  lemma GreedyRest(a: seq<seq<string>>, words: seq<string>, w: nat)
    requires Greedy(a, words, w)
    ensures Flatten(a[1..]) == words[|a[0]|..]
    ensures |a| > 1 ==> Greedy(a[1..], words[|a[0]|..], w) && words[|a[0]|..] != []
  {
    hide Together, MayFollow;
    assert words == a[0] + Flatten(a[1..]);
    if |a| > 1 {
      assert a[1..][0] == a[1];
      forall k | 0 < k < |a[1..]| ensures a[1..][k] != [] && !MayFollow(a[1..][k - 1], a[1..][k][0], w) {
        assert a[1..][k] == a[k + 1] && a[1..][k - 1] == a[k];
      }
    }
  }

  /** There is one greedy choice, so Greedy says exactly what every line becomes. */
  lemma {:induction false} GreedyUnique(a: seq<seq<string>>, b: seq<seq<string>>, words: seq<string>, w: nat)
    requires Greedy(a, words, w) && Greedy(b, words, w)
    ensures a == b
    decreases |a|
  {
    FirstNotShorter(a, b, words, w);
    FirstNotShorter(b, a, words, w);
    GreedyRest(a, words, w);
    GreedyRest(b, words, w);
    assert words == a[0] + Flatten(a[1..]) == b[0] + Flatten(b[1..]);
    assert a[0] == words[..|a[0]|] == b[0];
    assert a == [a[0]] + a[1..] && b == [b[0]] + b[1..];
    if |a| > 1 && |b| > 1 {
      GreedyUnique(a[1..], b[1..], words[|a[0]|..], w);
    }
  }

  // ----- short lines and single spaces -----

  lemma LeadingSpace(line: string, w: nat)
    requires line != "" && line[0] == ' '
    ensures Lines("", Split(line, ' '), w) == Lines("", Split(line[1..], ' '), w)
  {
  }

  function TrimLeft(line: string): string {
    if line != "" && line[0] == ' ' then TrimLeft(line[1..]) else line
  }

  /** The spaces at the front of a line are dropped, and what is left wraps as if they had not been there. */
  lemma {:induction false} LeadingSpacesDropped(line: string, w: nat)
    ensures Lines("", Split(line, ' '), w) == Lines("", Split(TrimLeft(line), ' '), w)
  {
    if line != "" && line[0] == ' ' {
      hide Lines, Split;
      LeadingSpace(line, w);
      LeadingSpacesDropped(line[1..], w);
    }
  }

  lemma JoinMore(cur: string, words: seq<string>)
    requires words != []
    ensures Join([cur] + words, ' ') == Join([cur + " " + words[0]] + words[1..], ' ')
    ensures |Join([cur] + words, ' ')| >= |cur + " " + words[0]|
  {
    assert ([cur] + words)[1..] == words;
    var joined := [cur + " " + words[0]] + words[1..];
    assert joined[1..] == words[1..];
    if |words| > 1 {
      assert cur + [' '] + (words[0] + [' '] + Join(words[1..], ' '))
          == cur + " " + words[0] + [' '] + Join(words[1..], ' ');
    }
  }

  lemma {:induction false} NoBreak(cur: string, words: seq<string>, w: nat)
    requires cur != "" && |Join([cur] + words, ' ')| <= w
    ensures Lines(cur, words, w) == [Join([cur] + words, ' ')]
    decreases |words|
  {
    if words == [] {
      assert [cur] + [] == [cur];
    } else {
      hide Join;
      JoinMore(cur, words);
      NoBreak(cur + " " + words[0], words[1..], w);
    }
  }

  /** A line that is short enough is kept whole, the empty line too, but for the spaces at its front. */
  lemma ShortLine(line: string, w: nat)
    requires |line| <= w
    ensures Lines("", Split(line, ' '), w) == [TrimLeft(line)]
    ensures Lines("", Split(line, ' '), w) == [line] <==> line == "" || line[0] != ' '
  {
    LeadingSpacesDropped(line, w);
    Trimmed(line);
    var rest := TrimLeft(line);
    var words := Split(rest, ' ');
    JoinSplit(rest, ' ');
    if rest == "" {
      assert Lines("", words, w) == [""];
    } else {
      assert words[0] != "";
      assert words == [words[0]] + words[1..];
      NoBreak(words[0], words[1..], w);
    }
  }

  lemma {:induction false} Trimmed(line: string)
    ensures |TrimLeft(line)| <= |line| && (TrimLeft(line) == "" || TrimLeft(line)[0] != ' ')
    ensures TrimLeft(line) == line <==> line == "" || line[0] != ' '
  {
    if line != "" && line[0] == ' ' {
      Trimmed(line[1..]);
    }
  }

  lemma JoinCons(first: string, rest: seq<string>)
    requires rest != []
    ensures Join([first] + rest, ' ') == first + " " + Join(rest, ' ')
  {
    assert ([first] + rest)[1..] == rest;
  }

  lemma {:induction false} LinesJoin(cur: string, words: seq<string>, w: nat)
    requires (cur != "" || words == []) && SingleSpaces(words)
    ensures Join(Lines(cur, words, w), ' ') == Join([cur] + words, ' ')
    decreases |words|
  {
    if words == [] {
      assert [cur] + [] == [cur];
    } else {
      hide Join, Lines;
      var word, rest := words[0], words[1..];
      LinesStep(cur, words, w);
      assert words == [word] + rest;
      if |cur + " " + word| > w {
        LinesJoin(word, rest, w);
        JoinCons(cur, Lines(word, rest, w));
        JoinCons(cur, words);
      } else {
        JoinMore(cur, words);
        LinesJoin(cur + " " + word, rest, w);
      }
    }
  }

  /** No word but the last is empty. */
  predicate SingleSpaces(words: seq<string>) {
    forall i | 0 <= i < |words| - 1 :: words[i] != ""
  }

  /** When single spaces separate its words, one more at the end allowed, a line is its wrapped lines joined. */
  lemma SingleSpaced(line: string, w: nat)
    requires SingleSpaces(Split(line, ' '))
    ensures Join(Lines("", Split(line, ' '), w), ' ') == line
  {
    hide Join;
    var words := Split(line, ' ');
    LinesStart(words, w);
    assert words == [words[0]] + words[1..];
    if |words| > 1 {
      assert words[0] != "";
    }
    LinesJoin(words[0], words[1..], w);
    JoinSplit(line, ' ');
  }

  // ----- the whole text -----

  function Max(a: int, b: int): int {
    if a > b then a else b
  }

  /** The lines each line of the text is wrapped to, all in one list. */
  function WrappedLines(lines: seq<string>, w: nat): seq<string> {
    if lines == [] then [] else WrappedLines(lines[..|lines| - 1], w) + Lines("", Split(lines[|lines| - 1], ' '), w)
  }

  lemma {:induction false} LinesNoNewline(cur: string, words: seq<string>, w: nat)
    requires '\n' !in cur && forall i | 0 <= i < |words| :: '\n' !in words[i]
    ensures forall i | 0 <= i < |Lines(cur, words, w)| :: '\n' !in Lines(cur, words, w)[i]
    decreases |words|
  {
    if words != [] {
      var wraps := cur != "" && |cur + " " + words[0]| > w;
      var next := if wraps || cur == "" then words[0] else cur + " " + words[0];
      LinesNoNewline(next, words[1..], w);
    }
  }

  lemma {:induction false} SplitAllFree(parts: seq<string>, sep: char)
    requires forall i | 0 <= i < |parts| :: sep !in parts[i]
    ensures SplitAll(parts, sep) == parts
  {
    if parts != [] {
      SplitNone(parts[0], sep);
      SplitAllFree(parts[1..], sep);
    }
  }

  lemma Associate(a: seq<string>, b: seq<string>, c: seq<string>)
    ensures a + (b + c) == a + b + c
  {
  }

  lemma {:induction false} SplitAllSnoc(parts: seq<string>, part: string, sep: char)
    ensures SplitAll(parts + [part], sep) == SplitAll(parts, sep) + Split(part, sep)
  {
    if parts == [] {
      assert [] + [part] == [part] && [part][1..] == [];
      assert Split(part, sep) + [] == [] + Split(part, sep);
    } else {
      SplitAllSnoc(parts[1..], part, sep);
      assert (parts + [part])[1..] == parts[1..] + [part];
      Associate(Split(parts[0], sep), SplitAll(parts[1..], sep), Split(part, sep));
    }
  }

  /** One more line wrapped. */
  lemma WrapStep(lines: seq<string>, i: nat, w: nat, wrapped: seq<string>)
    requires i < |lines| && '\n' !in lines[i] && SplitAll(wrapped, '\n') == WrappedLines(lines[..i], w)
    ensures var out := Lines("", Split(lines[i], ' '), w);
            SplitAll(wrapped + [Join(out, '\n')], '\n') == WrappedLines(lines[..i + 1], w)
  {
    hide Split, SplitAll, Lines, Join;
    var out := Lines("", Split(lines[i], ' '), w);
    SplitFree(lines[i], ' ', '\n');
    LinesNoNewline("", Split(lines[i], ' '), w);
    SplitJoin(out, '\n');
    SplitAllFree(out, '\n');
    SplitAllSnoc(wrapped, Join(out, '\n'), '\n');
    assert lines[..i + 1][..i] == lines[..i];
  }

  /** Each line of the text as the greedy groups of its words. */
  ghost predicate GreedyBlocks(blocks: seq<seq<seq<string>>>, lines: seq<string>, w: nat) {
    |blocks| == |lines| && forall i | 0 <= i < |lines| :: Greedy(blocks[i], Split(lines[i], ' '), w)
  }

  function TextsOf(blocks: seq<seq<seq<string>>>): seq<string> {
    if blocks == [] then [] else TextsOf(blocks[..|blocks| - 1]) + TextOf(blocks[|blocks| - 1])
  }

  /** The output is the lines, each broken greedily. */
  ghost predicate IsWrapped(lines: seq<string>, w: nat, output: seq<string>) {
    exists blocks :: GreedyBlocks(blocks, lines, w) && output == TextsOf(blocks)
  }

  lemma {:induction false} WrapsGreedily(lines: seq<string>, w: nat) returns (blocks: seq<seq<seq<string>>>)
    ensures GreedyBlocks(blocks, lines, w) && TextsOf(blocks) == WrappedLines(lines, w)
    decreases |lines|
  {
    if lines == [] {
      blocks := [];
    } else {
      hide Greedy, TextOf, Lines, Split, GreedyBlocks, TextsOf;
      var n := |lines| - 1;
      var front := WrapsGreedily(lines[..n], w);
      var last := LineGreedy(lines[n], w);
      blocks := front + [last];
      BlocksSnoc(front, lines, w, last);
    }
  }

  lemma BlocksSnoc(front: seq<seq<seq<string>>>, lines: seq<string>, w: nat, last: seq<seq<string>>)
    requires lines != [] && GreedyBlocks(front, lines[..|lines| - 1], w)
    requires Greedy(last, Split(lines[|lines| - 1], ' '), w)
    ensures GreedyBlocks(front + [last], lines, w) && TextsOf(front + [last]) == TextsOf(front) + TextOf(last)
  {
    hide Greedy, TextOf, Split;
    var n, blocks := |lines| - 1, front + [last];
    assert blocks[..n] == front;
    forall i | 0 <= i < |lines| ensures Greedy(blocks[i], Split(lines[i], ' '), w) {
      if i < n {
        assert lines[..n][i] == lines[i] && blocks[i] == front[i];
      }
    }
  }

  /** Every line is short enough and has no space at its front. */
  predicate NeedsNoWrap(lines: seq<string>, w: nat) {
    forall i | 0 <= i < |lines| :: |lines[i]| <= w && (lines[i] == "" || lines[i][0] != ' ')
  }

  lemma {:induction false} ShortTextKept(lines: seq<string>, w: nat)
    requires NeedsNoWrap(lines, w)
    ensures WrappedLines(lines, w) == lines
    decreases |lines|
  {
    if lines != [] {
      hide Split, Lines;
      var n := |lines| - 1;
      ShortTextKept(lines[..n], w);
      ShortLine(lines[n], w);
      assert lines[..n] + [lines[n]] == lines;
    }
  }

  /** The wrapped text, read back line by line, is each line of the input wrapped at max(20, width): broken exactly
      where the next word may not follow. A text that needs no wrapping comes back as it was. */
  method WrapText(text: string, width: int) returns (r: string)
    ensures Split(r, '\n') == WrappedLines(Split(text, '\n'), Max(20, width))
    ensures IsWrapped(Split(text, '\n'), Max(20, width), Split(r, '\n'))
    ensures NeedsNoWrap(Split(text, '\n'), Max(20, width)) ==> r == text
  {
    hide Split, SplitAll, Lines, Join, GreedyBlocks, NeedsNoWrap, TextsOf;
    var w := Max(20, width);
    var lines := Split(text, '\n');
    ghost var blocks := WrapsGreedily(lines, w);
    if NeedsNoWrap(lines, w) {
      ShortTextKept(lines, w);
    }
    SplitFree(text, '\n', '\n');
    NothingWrapped(lines, w);
    var wrapped: seq<string> := [];
    for i := 0 to |lines|
      invariant |wrapped| == i && SplitAll(wrapped, '\n') == WrappedLines(lines[..i], w)
    {
      var out := WrapLine(lines[i], w);
      WrapStep(lines, i, w, wrapped);
      wrapped := wrapped + [Join(out, '\n')];
    }
    assert lines[..|lines|] == lines;
    r := Join(wrapped, '\n');
    SplitJoin(wrapped, '\n');
    JoinSplit(r, '\n');
    JoinSplit(text, '\n');
  }

  lemma NothingWrapped(lines: seq<string>, w: nat)
    ensures SplitAll([], '\n') == WrappedLines(lines[..0], w) == []
  {
  }

  /** No line of the output is wider than max(20, width) unless it is one word of the input. */
  lemma {:induction false} TextFits(lines: seq<string>, w: nat, l: string)
    requires l in WrappedLines(lines, w)
    ensures |l| <= w || l in SplitAll(lines, ' ')
  {
    if lines != [] {
      hide Split, SplitAll, Lines;
      var front, last := lines[..|lines| - 1], lines[|lines| - 1];
      SplitAllSnoc(front, last, ' ');
      assert lines == front + [last];
      if l in WrappedLines(front, w) {
        TextFits(front, w, l);
      } else {
        LinesFit("", Split(last, ' '), w, l);
      }
    }
  }

  /** The non-empty words come out as they went in, in order. */
  lemma {:induction false} TextKeepsWords(lines: seq<string>, w: nat)
    ensures NonEmpty(SplitAll(WrappedLines(lines, w), ' ')) == NonEmpty(SplitAll(lines, ' '))
  {
    if lines != [] {
      hide Split, SplitAll, Lines, NonEmpty;
      var front, last := lines[..|lines| - 1], lines[|lines| - 1];
      TextKeepsWords(front, w);
      var before, words := WrappedLines(front, w), Split(last, ' ');
      SplitAllSnoc(front, last, ' ');
      assert lines == front + [last];
      LineKeepsWords(last, w);
      SplitAllAppend(before, Lines("", words, w), ' ');
      NonEmptyAppend(SplitAll(before, ' '), SplitAll(Lines("", words, w), ' '));
      NonEmptyAppend(SplitAll(front, ' '), words);
    }
  }

  lemma LineKeepsWords(line: string, w: nat)
    ensures NonEmpty(SplitAll(Lines("", Split(line, ' '), w), ' ')) == NonEmpty(Split(line, ' '))
  {
    SplitFree(line, ' ', ' ');
    LinesKeepWords("", Split(line, ' '), w);
    NothingSplit();
  }

  lemma {:induction false} SplitAllAppend(a: seq<string>, b: seq<string>, sep: char)
    ensures SplitAll(a + b, sep) == SplitAll(a, sep) + SplitAll(b, sep)
  {
    if a == [] {
      assert a + b == b;
    } else {
      hide Split;
      SplitAllAppend(a[1..], b, sep);
      assert (a + b)[1..] == a[1..] + b;
      Associate(Split(a[0], sep), SplitAll(a[1..], sep), SplitAll(b, sep));
    }
  }
}
