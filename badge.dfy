/** The initials badge of the creative layout:
    `name.split(" ").map((name) => name[0]).join("")`, with a reference
    definition (the first character of every word) proved equal to it. */
module Badge {

  /** Splitting on single spaces, `cur` being the piece read so far:
      consecutive, leading or trailing spaces give empty pieces, and there
      is always at least one piece. */
  function SplitFrom(s: string, cur: string): (r: seq<string>)
    ensures |r| >= 1
    decreases |s|
  {
    if s == [] then [cur]
    else if s[0] == ' ' then [cur] + SplitFrom(s[1..], [])
    else SplitFrom(s[1..], cur + [s[0]])
  }

  /** `s.split(" ")`. */
  function SplitOnSpace(s: string): seq<string>
  {
    SplitFrom(s, [])
  }

  /** `pieces.join(sep)`. */
  function Join(pieces: seq<string>, sep: char): string
  {
    if |pieces| == 0 then []
    else if |pieces| == 1 then pieces[0]
    else pieces[0] + [sep] + Join(pieces[1..], sep)
  }

  /** `piece[0]`, which is `undefined` for an empty piece and then joins as
      nothing. */
  function FirstChar(piece: string): seq<char>
  {
    if piece == [] then [] else [piece[0]]
  }

  /** `pieces.map(FirstChar).join("")`. */
  function Heads(pieces: seq<string>): string
  {
    if pieces == [] then [] else FirstChar(pieces[0]) + Heads(pieces[1..])
  }

  /** The text of the initials badge. */
  function Initials(name: string): string
  {
    Heads(SplitOnSpace(name))
  }

  /** Reference definition: the characters that start a word, a word
      starting at a non-space character at the very beginning (when
      `atStart`) or right after a space. */
  function WordInitials(s: string, atStart: bool): (r: string)
    ensures |r| <= |s|
  {
    if s == [] then []
    else (if s[0] != ' ' && atStart then [s[0]] else []) + WordInitials(s[1..], s[0] == ' ')
  }

  /** Splitting and re-joining on spaces gives the string back, and no
      piece contains a space. */
  lemma {:induction false} SplitFromJoin(s: string, cur: string)
    requires ' ' !in cur
    ensures Join(SplitFrom(s, cur), ' ') == cur + s
    ensures forall i :: 0 <= i < |SplitFrom(s, cur)| ==> ' ' !in SplitFrom(s, cur)[i]
    decreases |s|
  {
    if s == [] {
      assert cur + s == cur;
    } else if s[0] == ' ' {
      var rest := SplitFrom(s[1..], []);
      SplitFromJoin(s[1..], []);
      assert ([cur] + rest)[1..] == rest;
      assert cur + s == cur + [' '] + s[1..];
      forall i | 0 <= i < |[cur] + rest| ensures ' ' !in ([cur] + rest)[i] {
        if i > 0 {
          assert ([cur] + rest)[i] == rest[i - 1];
        }
      }
    } else {
      SplitFromJoin(s[1..], cur + [s[0]]);
      assert cur + [s[0]] + s[1..] == cur + s;
    }
  }

  /** `s.split(" ").join(" ") == s`, with space-free pieces. */
  lemma SplitJoinRoundTrip(s: string)
    ensures Join(SplitOnSpace(s), ' ') == s
    ensures forall i :: 0 <= i < |SplitOnSpace(s)| ==> ' ' !in SplitOnSpace(s)[i]
  {
    SplitFromJoin(s, []);
  }

  lemma {:induction false} SplitFromInitials(s: string, cur: string)
    ensures Heads(SplitFrom(s, cur))
         == if cur == [] then WordInitials(s, true) else [cur[0]] + WordInitials(s, false)
    decreases |s|
  {
    if s == [] {
      assert [cur][1..] == [];
    } else if s[0] == ' ' {
      var rest := SplitFrom(s[1..], []);
      SplitFromInitials(s[1..], []);
      assert ([cur] + rest)[1..] == rest;
    } else {
      SplitFromInitials(s[1..], cur + [s[0]]);
    }
  }

  /** The badge shows the first character of every word, in order. */
  lemma InitialsAreWordStarts(name: string)
    ensures Initials(name) == WordInitials(name, true)
  {
    SplitFromInitials(name, []);
  }

  /** Position `i` of `s` holds a non-space character that starts a word;
      `atStart` says whether position 0 counts as following a space. */
  predicate StartsWord(s: string, i: int, atStart: bool)
    requires 0 <= i < |s|
  {
    s[i] != ' ' && (if i == 0 then atStart else s[i - 1] == ' ')
  }

  /** A character is in `WordInitials(s, atStart)` exactly when it occurs in
      `s` as a non-space character at the start of a word. */
  lemma {:induction false} WordInitialsMember(s: string, atStart: bool, c: char)
    ensures c in WordInitials(s, atStart) <==> exists i :: 0 <= i < |s| && s[i] == c && StartsWord(s, i, atStart)
  {
    if s != [] {
      var head := if s[0] != ' ' && atStart then [s[0]] else [];
      var tail := s[1..];
      WordInitialsMember(tail, s[0] == ' ', c);
      assert WordInitials(s, atStart) == head + WordInitials(tail, s[0] == ' ');
      if c in head {
        assert s[0] == c && StartsWord(s, 0, atStart);
      }
      if c in WordInitials(tail, s[0] == ' ') {
        var j :| 0 <= j < |tail| && tail[j] == c && StartsWord(tail, j, s[0] == ' ');
        assert s[j + 1] == c && StartsWord(s, j + 1, atStart);
      }
      if exists i :: 0 <= i < |s| && s[i] == c && StartsWord(s, i, atStart) {
        var i :| 0 <= i < |s| && s[i] == c && StartsWord(s, i, atStart);
        if i == 0 {
          assert c in head;
        } else {
          assert tail[i - 1] == c && StartsWord(tail, i - 1, s[0] == ' ');
        }
      }
    }
  }

  /** The badge holds exactly the characters that begin a word of the name,
      and never a space. */
  lemma InitialsMember(name: string, c: char)
    ensures c in Initials(name) <==> exists i :: 0 <= i < |name| && name[i] == c && StartsWord(name, i, true)
    ensures ' ' !in Initials(name) && |Initials(name)| <= |name|
  {
    InitialsAreWordStarts(name);
    WordInitialsMember(name, true, c);
    WordInitialsMember(name, true, ' ');
  }

  /** A run of non-space characters starts one word at most. */
  lemma {:induction false} WordInitialsNoSpace(s: string)
    requires ' ' !in s
    ensures WordInitials(s, false) == []
    ensures s != [] ==> WordInitials(s, true) == [s[0]]
  {
    if s != [] {
      assert ' ' !in s[1..] by {
        forall k | 0 <= k < |s[1..]| ensures s[1..][k] != ' ' {
          assert s[1..][k] == s[k + 1];
        }
      }
      WordInitialsNoSpace(s[1..]);
    }
  }

  /** The word starts of `a + b` are those of `a` followed by those of `b`,
      where `b` starts a word when `a` ends in a space. */
  lemma {:induction false} WordInitialsAppend(a: string, b: string, atStart: bool)
    ensures WordInitials(a + b, atStart)
         == WordInitials(a, atStart) + WordInitials(b, if a == [] then atStart else a[|a| - 1] == ' ')
  {
    if a == [] {
      assert a + b == b;
    } else {
      var head := if a[0] != ' ' && atStart then [a[0]] else [];
      var next := a[|a| - 1] == ' ';
      assert (a + b)[0] == a[0] && (a + b)[1..] == a[1..] + b;
      assert WordInitials(a + b, atStart) == head + WordInitials(a[1..] + b, a[0] == ' ');
      assert WordInitials(a, atStart) == head + WordInitials(a[1..], a[0] == ' ');
      WordInitialsAppend(a[1..], b, a[0] == ' ');
      if |a| > 1 {
        assert a[1..][|a[1..]| - 1] == a[|a| - 1];
      }
      assert WordInitials(a[1..] + b, a[0] == ' ') == WordInitials(a[1..], a[0] == ' ') + WordInitials(b, next);
    }
  }

  /** Two space-free words joined by one space show their two first
      characters: "John Doe" shows "JD". */
  lemma TwoWords(first: string, last: string)
    requires first != [] && last != [] && ' ' !in first && ' ' !in last
    ensures Initials(first + " " + last) == [first[0], last[0]]
  {
    InitialsAreWordStarts(first + " " + last);
    WordInitialsAppend(first + " ", last, true);
    WordInitialsAppend(first, " ", true);
    WordInitialsNoSpace(first);
    WordInitialsNoSpace(last);
  }
}
