/** How the databases of a restore are named. */
module NameLaws {
  import opened RestoreSwap

  const HEX := "0123456789abcdef"
  const LETTERS := "abcdefghijklmnopqrstuvwxyz"
  const DIGITS := "0123456789"

  ghost predicate IsPlain(c: char) { c in LETTERS || c in DIGITS }

  lemma HexDigits(c: char)
    ensures 'a' <= c <= 'f' || '0' <= c <= '9' <==> c in HEX
  {
    if 'a' <= c <= 'f' || '0' <= c <= '9' {
      assert c in {'0', '1', '2', '3', '4', '5', '6', '7', '8', '9', 'a', 'b', 'c', 'd', 'e', 'f'};
    }
  }

  lemma Letters(c: char)
    ensures 'a' <= c <= 'z' <==> c in LETTERS
  {
    if 'a' <= c <= 'm' { assert c in {'a', 'b', 'c', 'd', 'e', 'f', 'g', 'h', 'i', 'j', 'k', 'l', 'm'}; }
    if 'n' <= c <= 'z' { assert c in {'n', 'o', 'p', 'q', 'r', 's', 't', 'u', 'v', 'w', 'x', 'y', 'z'}; }
  }

  lemma Digits(c: char)
    ensures '0' <= c <= '9' <==> c in DIGITS
  {
    if '0' <= c <= '9' { assert c in {'0', '1', '2', '3', '4', '5', '6', '7', '8', '9'}; }
  }

  lemma WordChars(c: char)
    ensures IsWordChar(c) <==> IsPlain(c)
  {
    Letters(c);
    Digits(c);
  }

  /** A swap id is sixteen hexadecimal digits. */
  lemma SwapIdsAreHex(s: string)
    ensures IsSwapId(s) <==> |s| == 16 && forall c :: c in s ==> c in HEX
  {
    if forall c :: c in s ==> c in HEX {
      forall i | 0 <= i < |s| ensures 'a' <= s[i] <= 'f' || '0' <= s[i] <= '9' { HexDigits(s[i]); }
    }
    if IsSwapId(s) {
      forall c | c in s ensures c in HEX { HexDigits(c); }
    }
  }

  /** Words, each led by an underscore. */
  function Joined(words: seq<string>): string {
    if words == [] then "" else "_" + words[0] + Joined(words[1..])
  }

  ghost predicate IsWord(w: string) { w != "" && forall c :: c in w ==> IsPlain(c) }

  ghost predicate AllWords(words: seq<string>) { forall w :: w in words ==> IsWord(w) }

  lemma {:induction false} DropWordDrops(w: string, rest: string)
    requires (forall i :: 0 <= i < |w| ==> IsWordChar(w[i])) && (rest == "" || !IsWordChar(rest[0]))
    ensures DropWord(w + rest) == rest
    decreases |w|
  {
    if w == "" { assert w + rest == rest; } else {
      assert (w + rest)[1..] == w[1..] + rest;
      DropWordDrops(w[1..], rest);
    }
  }

  lemma OneGroupMore(w: string, rest: string)
    requires IsWord(w) && IsGroups(rest)
    ensures IsGroups("_" + w + rest)
  {
    forall i | 0 <= i < |w| ensures IsWordChar(w[i]) { WordChars(w[i]); }
    DropWordDrops(w[1..], rest);
    var s := "_" + w + rest;
    assert s[0] == '_' && s[1] == w[0] && s[2..] == w[1..] + rest;
  }

  lemma {:induction false} JoinedIsGroups(words: seq<string>)
    requires AllWords(words)
    ensures IsGroups(Joined(words))
    decreases |words|
  {
    if words != [] {
      assert words[0] in words && forall v :: v in words[1..] ==> v in words;
      JoinedIsGroups(words[1..]);
      OneGroupMore(words[0], Joined(words[1..]));
    }
  }

  lemma {:induction false} WordIsDropped(s: string) returns (w: string)
    ensures s == w + DropWord(s) && forall c :: c in w ==> IsPlain(c)
    decreases |s|
  {
    w := "";
    if s != [] && IsWordChar(s[0]) {
      var rest := WordIsDropped(s[1..]);
      WordChars(s[0]);
      w := [s[0]] + rest;
      assert s == [s[0]] + (rest + DropWord(s[1..])) == w + DropWord(s);
    }
  }

  lemma {:induction false} GroupsAreJoined(s: string) returns (words: seq<string>)
    requires IsGroups(s)
    ensures AllWords(words) && s == Joined(words)
    decreases |s|
  {
    words := [];
    if s != [] {
      var tail := WordIsDropped(s[2..]);
      var rest := GroupsAreJoined(DropWord(s[2..]));
      WordChars(s[1]);
      words := [[s[1]] + tail] + rest;
      LedByUnderscore(s, tail, DropWord(s[2..]));
      WordsMore([s[1]] + tail, rest);
    }
  }

  lemma LedByUnderscore(s: string, tail: string, rest: string)
    requires |s| >= 2 && s[0] == '_' && s[2..] == tail + rest
    ensures s == "_" + ([s[1]] + tail) + rest
  {
    assert s == [s[0]] + [s[1]] + s[2..];
  }

  lemma WordsMore(w: string, words: seq<string>)
    requires IsWord(w) && AllWords(words)
    ensures AllWords([w] + words) && Joined([w] + words) == "_" + w + Joined(words)
  {
    assert ([w] + words)[1..] == words;
  }

  /** A live database is named for the system, with further words of lower-case letters and digits; the beginnings of
      the names of side databases are theirs. */
  lemma SafeNamesAreWords(s: string)
    ensures IsSafeLiveDatabaseName(s)
            <==> |s| <= 63 && (exists words :: AllWords(words) && s == "vereinorder" + Joined(words))
                 && (forall t :: s != "vereinorder_restore_" + t) && (forall t :: s != "vereinorder_pre_" + t)
  {
    Starts(s, "vereinorder");
    Starts(s, "vereinorder_restore_");
    Starts(s, "vereinorder_pre_");
    if StartsWith(s, "vereinorder") && IsGroups(s[11..]) {
      var words := GroupsAreJoined(s[11..]);
      assert s == s[..11] + s[11..] == "vereinorder" + Joined(words);
    }
    if words :| AllWords(words) && s == "vereinorder" + Joined(words) {
      assert s[..11] == "vereinorder" && s[11..] == Joined(words);
      JoinedIsGroups(words);
    }
  }

  lemma Starts(s: string, prefix: string)
    ensures StartsWith(s, prefix) <==> exists t :: s == prefix + t
  {
    if StartsWith(s, prefix) { assert s == prefix + s[|prefix|..]; }
    if t :| s == prefix + t { assert s[..|prefix|] == prefix; }
  }

  /** "test" stands in the name as a word. */
  ghost predicate TestBetween(s: string, a: string, b: string) {
    s == a + "test" + b && (a == "" || a[|a| - 1] == '_') && (b == "" || b[0] == '_')
  }

  lemma TestIsGroup(s: string, a: string, b: string)
    requires TestBetween(s, a, b)
    ensures TestMarker(s) == "test_"
  {
    var i: nat := |a|;
    assert s[i..i + 4] == "test";
    assert i <= |s| && TestGroupAt(s, i);
  }

  lemma GroupIsTest(s: string, i: nat)
    requires TestGroupAt(s, i)
    ensures TestBetween(s, s[..i], s[i + 4..])
  {
    assert s == s[..i] + s[i..i + 4] + s[i + 4..];
  }

  /** The names of side databases say that they belong to a test system exactly if "test" is a word of the live name. */
  lemma MarkerMeansTest(s: string)
    ensures TestMarker(s) == "test_" <==> exists a, b :: TestBetween(s, a, b)
    ensures TestMarker(s) == "test_" || TestMarker(s) == ""
  {
    if TestMarker(s) == "test_" {
      var i: nat :| i <= |s| && TestGroupAt(s, i);
      GroupIsTest(s, i);
    }
    if a, b :| TestBetween(s, a, b) { TestIsGroup(s, a, b); }
  }
}
