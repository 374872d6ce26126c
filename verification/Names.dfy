/** Splitting a complete name into parts, and building a full name back from parts. */
module Names {
  import opened Prelude

  /** The characters that `\s` matches and `trim` removes. */
  predicate IsSpace(c: char) {
    var n := c as int;
    9 <= n <= 13 || n == 0x20 || n == 0xA0 || n == 0x1680 || 0x2000 <= n <= 0x200A ||
    n == 0x2028 || n == 0x2029 || n == 0x202F || n == 0x205F || n == 0x3000 || n == 0xFEFF
  }

  function SkipSpaces(s: string): (r: string)
    ensures |r| <= |s|
    ensures r != "" ==> !IsSpace(r[0]) && r[|r| - 1] == s[|s| - 1]
  {
    if s != "" && IsSpace(s[0]) then SkipSpaces(s[1..]) else s
  }

  function TrimEnd(s: string): string {
    if s != "" && IsSpace(s[|s| - 1]) then TrimEnd(s[..|s| - 1]) else s
  }

  function Trim(s: string): string {
    TrimEnd(SkipSpaces(s))
  }

  /** The length of the first run of characters that are not spaces. */
  function WordLength(s: string): (n: nat)
    ensures n <= |s| && (forall i | 0 <= i < n :: !IsSpace(s[i])) && (n < |s| ==> IsSpace(s[n]))
  {
    if s == "" || IsSpace(s[0]) then 0 else
      var n := WordLength(s[1..]);
      assert forall i | 0 <= i < n :: !IsSpace(s[1..][i]);
      n + 1
  }

  /** The pieces between runs of spaces. */
  function Split(s: string): (parts: seq<string>)
    ensures parts != []
    decreases |s|
  {
    var n := WordLength(s);
    if n == |s| then [s]
    else
      assert |SkipSpaces(s[n..])| < |s|;
      [s[..n]] + Split(SkipSpaces(s[n..]))
  }

  function Join(parts: seq<string>): string {
    if parts == [] then "" else if |parts| == 1 then parts[0] else parts[0] + " " + Join(parts[1..])
  }

  datatype Name = Name(firstName: string, lastName: string, secondLastName: string)

  function ParseCompleteName(completeName: string): Name {
    var parts := Split(Trim(completeName));
    var n := |parts|;
    if n >= 3 then Name(Join(parts[..n - 2]), parts[n - 2], parts[n - 1])
    else if n == 2 then Name(parts[0], parts[1], "")
    else Name(if parts[0] != "" then parts[0] else completeName, "", "")
  }

  function Kept(part: Option<string>): seq<string> {
    if part.Some? && Trim(part.value) != "" then [Trim(part.value)] else []
  }

  function BuildFullName(first: Option<string>, middle: Option<string>, last: Option<string>, second: Option<string>): string {
    Join(Kept(first) + Kept(middle) + Kept(last) + Kept(second))
  }

  function FullName(name: Name): string {
    BuildFullName(Some(name.firstName), None, Some(name.lastName), Some(name.secondLastName))
  }

  // ---------- Words ----------

  predicate IsWord(w: string) {
    w != "" && forall i | 0 <= i < |w| :: !IsSpace(w[i])
  }

  predicate AllWords(ws: seq<string>) {
    forall w | w in ws :: IsWord(w)
  }

  /** The words of a string: its maximal runs of characters that are not spaces. */
  function Words(s: string): (ws: seq<string>)
    ensures AllWords(ws)
    decreases |s|
  {
    if s == "" then []
    else if IsSpace(s[0]) then Words(s[1..])
    else
      var n := WordLength(s);
      [s[..n]] + Words(s[n..])
  }

  lemma {:induction false} WordsSkip(s: string)
    ensures Words(SkipSpaces(s)) == Words(s)
  {
    if s != "" && IsSpace(s[0]) {
      WordsSkip(s[1..]);
    }
  }

  lemma {:induction false} WordLengthAppend(s: string, c: char)
    requires IsSpace(c)
    ensures WordLength(s + [c]) == WordLength(s)
  {
    if s != "" && !IsSpace(s[0]) {
      assert (s + [c])[1..] == s[1..] + [c];
      WordLengthAppend(s[1..], c);
    }
  }

  lemma {:induction false} WordsAppendSpace(s: string, c: char)
    requires IsSpace(c)
    ensures Words(s + [c]) == Words(s)
    decreases |s|
  {
    var t := s + [c];
    if s == "" {
      assert t[1..] == "";
    } else if IsSpace(s[0]) {
      assert t[1..] == s[1..] + [c];
      WordsAppendSpace(s[1..], c);
    } else {
      WordLengthAppend(s, c);
      var n := WordLength(s);
      assert n > 0 && t[..n] == s[..n] && t[n..] == s[n..] + [c];
      WordsAppendSpace(s[n..], c);
    }
  }

  lemma {:induction false} WordsTrimEnd(s: string)
    ensures Words(TrimEnd(s)) == Words(s)
  {
    if s != "" && IsSpace(s[|s| - 1]) {
      WordsTrimEnd(s[..|s| - 1]);
      WordsAppendSpace(s[..|s| - 1], s[|s| - 1]);
      assert s[..|s| - 1] + [s[|s| - 1]] == s;
    }
  }

  lemma WordsTrim(s: string)
    ensures Words(Trim(s)) == Words(s)
  {
    WordsTrimEnd(SkipSpaces(s));
    WordsSkip(s);
  }

  /** Neither empty nor starting or ending with a space. */
  predicate Tight(s: string) {
    s != "" && !IsSpace(s[0]) && !IsSpace(s[|s| - 1])
  }

  lemma {:induction false} TrimEndTight(s: string)
    requires s != "" && !IsSpace(s[0])
    ensures Tight(TrimEnd(s))
  {
    if IsSpace(s[|s| - 1]) {
      TrimEndTight(s[..|s| - 1]);
    }
  }

  lemma TrimTight(s: string)
    ensures Trim(s) == "" || Tight(Trim(s))
  {
    if SkipSpaces(s) != "" {
      TrimEndTight(SkipSpaces(s));
    }
  }

  /** On a tight string, splitting at space runs gives exactly the words. */
  lemma {:induction false} SplitTight(s: string)
    requires Tight(s)
    ensures Split(s) == Words(s)
    decreases |s|
  {
    var n := WordLength(s);
    if n == |s| {
      assert s[..n] == s && s[n..] == "";
    } else {
      var rest := SkipSpaces(s[n..]);
      SkipKeepsTail(s[n..]);
      SplitTight(rest);
      WordsSkip(s[n..]);
    }
  }

  lemma {:induction false} SkipKeepsTail(s: string)
    requires s != "" && !IsSpace(s[|s| - 1])
    ensures Tight(SkipSpaces(s))
  {
    if IsSpace(s[0]) {
      SkipKeepsTail(s[1..]);
    }
  }

  /** The parts of a trimmed name are its words, or one empty part when it has none. */
  lemma PartsAreWords(s: string)
    ensures Split(Trim(s)) == if Words(s) == [] then [""] else Words(s)
  {
    WordsTrim(s);
    TrimTight(s);
    if Trim(s) != "" {
      SplitTight(Trim(s));
      assert Split(Trim(s)) != [];
    }
  }

  lemma {:induction false} HasWords(s: string)
    ensures Words(s) != [] <==> exists i | 0 <= i < |s| :: !IsSpace(s[i])
  {
    if s != "" && IsSpace(s[0]) {
      HasWords(s[1..]);
      assert forall i | 1 <= i < |s| :: s[i] == s[1..][i - 1];
    }
  }

  // ---------- Joining ----------

  lemma {:induction false} JoinConcat(a: seq<string>, b: seq<string>)
    requires a != [] && b != []
    ensures Join(a + b) == Join(a) + " " + Join(b)
  {
    if |a| == 1 {
      assert (a + b)[1..] == b;
    } else {
      JoinConcat(a[1..], b);
      assert (a + b)[1..] == a[1..] + b;
    }
  }

  lemma {:induction false} JoinTight(ws: seq<string>)
    requires ws != [] && AllWords(ws)
    ensures Tight(Join(ws))
  {
    assert IsWord(ws[0]);
    if |ws| > 1 {
      JoinTight(ws[1..]);
    }
  }

  lemma {:induction false} WordLengthOf(w: string, rest: string)
    requires IsWord(w) && (rest == "" || IsSpace(rest[0]))
    ensures WordLength(w + rest) == |w|
  {
    assert (w + rest)[1..] == w[1..] + rest;
    if |w| > 1 {
      WordLengthOf(w[1..], rest);
    } else {
      assert w[1..] + rest == rest;
    }
  }

  /** Words joined by single spaces read back as the same words. */
  lemma {:induction false} WordsOfJoin(ws: seq<string>)
    requires AllWords(ws)
    ensures Words(Join(ws)) == ws
  {
    if ws != [] {
      var w := ws[0];
      assert IsWord(w);
      var tail := if |ws| == 1 then "" else " " + Join(ws[1..]);
      assert Join(ws) == w + tail;
      WordLengthOf(w, tail);
      assert (w + tail)[..|w|] == w && (w + tail)[|w|..] == tail;
      WordsOfJoin(ws[1..]);
      if |ws| > 1 {
        assert tail[1..] == Join(ws[1..]);
      }
    }
  }

  lemma TightStays(s: string)
    requires Tight(s)
    ensures Trim(s) == s
  {
  }

  lemma KeptTight(s: string)
    requires Tight(s)
    ensures Kept(Some(s)) == [s]
  {
    TightStays(s);
  }

  lemma KeptWord(w: string)
    requires IsWord(w)
    ensures Kept(Some(w)) == [w]
  {
    KeptTight(w);
  }

  lemma BlankDropped(s: string)
    requires Words(s) == []
    ensures Kept(Some(s)) == []
  {
    WordsTrim(s);
    TrimTight(s);
  }

  lemma FullNameFromKept(name: Name, a: seq<string>, b: seq<string>, c: seq<string>)
    requires Kept(Some(name.firstName)) == a && Kept(Some(name.lastName)) == b && Kept(Some(name.secondLastName)) == c
    ensures FullName(name) == Join(a + b + c)
  {
    assert Kept(None) == [];
    assert a + [] + b + c == a + b + c;
  }

  /** Joining the front of a list first makes no difference. */
  lemma JoinNested(front: seq<string>, back: seq<string>)
    requires front != [] && back != []
    ensures Join([Join(front)] + back) == Join(front + back)
  {
    JoinConcat(front, back);
    JoinConcat([Join(front)], back);
  }

  lemma BuildFromWords(ws: seq<string>, front: seq<string>, y: string, z: string)
    requires AllWords(front) && front != [] && IsWord(y) && IsWord(z) && ws == front + [y, z]
    ensures FullName(Name(Join(front), y, z)) == Join(ws)
  {
    JoinTight(front);
    KeptTight(Join(front));
    KeptWord(y);
    KeptWord(z);
    FullNameFromKept(Name(Join(front), y, z), [Join(front)], [y], [z]);
    assert [Join(front)] + [y] + [z] == [Join(front)] + [y, z];
    JoinNested(front, [y, z]);
  }

  lemma BuildFromFew(s: string)
    requires |Words(s)| < 3
    ensures FullName(ParseCompleteName(s)) == Join(Words(s))
  {
    PartsAreWords(s);
    var ws := Words(s);
    var name := ParseCompleteName(s);
    BlankDropped("");
    if |ws| == 2 {
      KeptWord(ws[0]);
      KeptWord(ws[1]);
      FullNameFromKept(name, [ws[0]], [ws[1]], []);
      assert [ws[0]] + [ws[1]] + [] == ws;
    } else if |ws| == 1 {
      KeptWord(ws[0]);
      FullNameFromKept(name, [ws[0]], [], []);
      assert [ws[0]] + [] + [] == ws;
    } else {
      BlankDropped(s);
      FullNameFromKept(name, [], [], []);
    }
  }

  lemma ParseMany(s: string, front: seq<string>, y: string, z: string)
    requires front != [] && Words(s) == front + [y, z]
    ensures ParseCompleteName(s) == Name(Join(front), y, z)
    ensures AllWords(front) && IsWord(y) && IsWord(z)
  {
    PartsAreWords(s);
    var ws := Words(s);
    assert ws[..|ws| - 2] == front && y in ws && z in ws;
  }

  lemma LastTwo(ws: seq<string>) returns (front: seq<string>, y: string, z: string)
    requires |ws| >= 3
    ensures front != [] && ws == front + [y, z]
  {
    front, y, z := ws[..|ws| - 2], ws[|ws| - 2], ws[|ws| - 1];
  }

  lemma BuildFromMany(s: string, front: seq<string>, y: string, z: string)
    requires front != [] && Words(s) == front + [y, z]
    ensures FullName(ParseCompleteName(s)) == Join(Words(s))
  {
    ParseMany(s, front, y, z);
    BuildFromWords(Words(s), front, y, z);
  }

  /** Building a full name from the parsed parts gives the input's words joined by single spaces. */
  lemma FullNameOfParsed(s: string)
    ensures FullName(ParseCompleteName(s)) == Join(Words(s))
  {
    if |Words(s)| >= 3 {
      var front, y, z := LastTwo(Words(s));
      BuildFromMany(s, front, y, z);
    } else {
      BuildFromFew(s);
    }
  }

  /** The parts depend only on the words, once there is one. */
  lemma SameWordsSameParts(s: string, t: string)
    requires Words(s) == Words(t) != []
    ensures ParseCompleteName(s) == ParseCompleteName(t)
  {
    PartsAreWords(s);
    PartsAreWords(t);
    assert IsWord(Words(s)[0]);
  }

  /** Parsing the built name gives the same parts exactly when the input has a non-space character or is empty. */
  lemma ParseStable(s: string)
    ensures ParseCompleteName(FullName(ParseCompleteName(s))) == ParseCompleteName(s) <==>
            s == "" || exists i | 0 <= i < |s| :: !IsSpace(s[i])
  {
    FullNameOfParsed(s);
    HasWords(s);
    if Words(s) != [] {
      WordsOfJoin(Words(s));
      SameWordsSameParts(Join(Words(s)), s);
    } else {
      PartsAreWords(s);
      PartsAreWords("");
    }
  }
}
