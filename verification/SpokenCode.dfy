/** Spoken pairing codes (tmite-proto/src/pairing.rs). The word list and the
    checksum are parameters; the positional word codec is that of section 4.1
    of docs/design.md. */
module SpokenCode {
  import opened Prelude

  const BASE := 1626
  const LAST_WORDS := 41

  type Checksum = seq<byte> -> byte

  predicate IsWordChar(c: char) {
    'a' <= c <= 'z' || 'A' <= c <= 'Z' || c == '\''
  }

  predicate IsWord(w: string) {
    w != "" && forall i :: 0 <= i < |w| ==> IsWordChar(w[i])
  }

  predicate IsGap(g: string) {
    forall i :: 0 <= i < |g| ==> !IsWordChar(g[i])
  }

  // ---- Splitting ----

  /** Rust's `split`: a piece ends at every separator, empty pieces included. */
  function Split(s: string): (r: seq<string>)
    ensures r != []
  {
    if s == "" then [""]
    else if !IsWordChar(s[0]) then [""] + Split(s[1..])
    else
      var r := Split(s[1..]);
      [[s[0]] + r[0]] + r[1..]
  }

  function LowerNonEmpty(pieces: seq<string>): seq<string> {
    if pieces == [] then []
    else (if pieces[0] == "" then [] else [Lowercase(pieces[0])]) + LowerNonEmpty(pieces[1..])
  }

  /** `normalize_words`. */
  function Normalize(code: string): seq<string> {
    LowerNonEmpty(Split(code))
  }

  lemma {:induction false} SplitWord(w: string, rest: string)
    requires forall i :: 0 <= i < |w| ==> IsWordChar(w[i])
    ensures Split(w + rest) == [w + Split(rest)[0]] + Split(rest)[1..]
  {
    if w == "" {
      assert w + rest == rest && w + Split(rest)[0] == Split(rest)[0];
    } else {
      assert (w + rest)[1..] == w[1..] + rest;
      SplitWord(w[1..], rest);
      assert [w[0]] + (w[1..] + Split(rest)[0]) == w + Split(rest)[0];
    }
  }

  lemma NormalizeWord(w: string, rest: string)
    requires IsWord(w) && (rest == "" || !IsWordChar(rest[0]))
    ensures Normalize(w + rest) == [Lowercase(w)] + Normalize(rest)
  {
    SplitWord(w, rest);
    assert Split(rest)[0] == "";
    var pieces := Split(w + rest);
    assert pieces[0] == w && pieces[1..] == Split(rest)[1..];
  }

  lemma {:induction false} NormalizeGap(g: string, rest: string)
    requires IsGap(g)
    ensures Normalize(g + rest) == Normalize(rest)
  {
    if g == "" {
      assert g + rest == rest;
    } else {
      assert (g + rest)[1..] == g[1..] + rest;
      NormalizeGap(g[1..], rest);
      assert Split(g + rest)[1..] == Split(g[1..] + rest);
    }
  }

  /** Any way to write the words down: what stands before, between and after
      them, one gap more than there are words. */
  function Spread(ws: seq<string>, gaps: seq<string>): string
    requires |gaps| == |ws| + 1
  {
    if ws == [] then gaps[0] else gaps[0] + (ws[0] + Spread(ws[1..], gaps[1..]))
  }

  ghost predicate Separates(ws: seq<string>, gaps: seq<string>) {
    && |gaps| == |ws| + 1
    && (forall i :: 0 <= i < |gaps| ==> IsGap(gaps[i]))
    && (forall i :: 0 < i < |ws| ==> gaps[i] != "")
  }

  function Lowered(ws: seq<string>): (r: seq<string>)
    ensures |r| == |ws| && forall i :: 0 <= i < |ws| ==> r[i] == Lowercase(ws[i])
  {
    if ws == [] then [] else [Lowercase(ws[0])] + Lowered(ws[1..])
  }

  /** Case and separators do not matter: however the words are spread out,
      normalizing gives back exactly the words in lower case. */
  lemma {:induction false} NormalizeSpread(ws: seq<string>, gaps: seq<string>)
    requires Separates(ws, gaps) && forall i :: 0 <= i < |ws| ==> IsWord(ws[i])
    ensures Normalize(Spread(ws, gaps)) == Lowered(ws)
    decreases |ws|
  {
    if ws == [] {
      NormalizeGap(gaps[0], "");
      assert gaps[0] + "" == gaps[0];
    } else {
      var tail := Spread(ws[1..], gaps[1..]);
      NormalizeSpread(ws[1..], gaps[1..]);
      NormalizeGap(gaps[0], ws[0] + tail);
      assert tail == "" || !IsWordChar(tail[0]) by {
        if gaps[1] != "" { assert tail[0] == gaps[1][0]; } else { assert |ws| == 1 && tail == gaps[1]; }
      }
      NormalizeWord(ws[0], tail);
    }
  }

  function Join(ws: seq<string>, sep: char): string {
    if ws == [] then "" else if |ws| == 1 then ws[0] else ws[0] + [sep] + Join(ws[1..], sep)
  }

  function JoinGaps(n: nat, sep: char): (gaps: seq<string>)
    ensures |gaps| == n + 1
    ensures forall i :: 0 <= i <= n ==> gaps[i] == if 0 < i < n then [sep] else ""
  {
    seq(n + 1, i => if 0 < i < n then [sep] else "")
  }

  /** Gaps inside a joined tail: the separator already precedes it. */
  lemma {:induction false} JoinIsSpread(ws: seq<string>, sep: char, gaps: seq<string>)
    requires |gaps| == |ws| + 1
    requires forall i :: 0 < i <= |ws| ==> gaps[i] == if i < |ws| then [sep] else ""
    ensures Spread(ws, gaps) == if ws == [] then gaps[0] else gaps[0] + Join(ws, sep)
    decreases |ws|
  {
    if |ws| == 1 {
      assert Spread(ws[1..], gaps[1..]) == "";
      assert ws[0] + "" == ws[0];
    } else if ws != [] {
      JoinIsSpread(ws[1..], sep, gaps[1..]);
      assert ws[0] + ([sep] + Join(ws[1..], sep)) == Join(ws, sep);
    }
  }

  lemma NormalizeJoin(ws: seq<string>, sep: char)
    requires !IsWordChar(sep) && forall i :: 0 <= i < |ws| ==> IsWord(ws[i])
    ensures Normalize(Join(ws, sep)) == Lowered(ws)
  {
    var gaps := JoinGaps(|ws|, sep);
    JoinIsSpread(ws, sep, gaps);
    NormalizeSpread(ws, gaps);
    assert gaps[0] + Join(ws, sep) == Join(ws, sep);
  }

  lemma {:induction false} SplitPieces(s: string, i: nat)
    requires i < |Split(s)|
    ensures Split(s)[i] == "" || IsWord(Split(s)[i])
  {
    if s != "" {
      if !IsWordChar(s[0]) {
        if i > 0 { SplitPieces(s[1..], i - 1); }
      } else {
        SplitPieces(s[1..], i);
      }
    }
  }

  lemma LowercaseWord(w: string)
    requires IsWord(w)
    ensures IsWord(Lowercase(w)) && Lowercase(Lowercase(w)) == Lowercase(w)
  {
  }

  lemma {:induction false} LowerNonEmptyWords(pieces: seq<string>, i: nat)
    requires forall k :: 0 <= k < |pieces| ==> pieces[k] == "" || IsWord(pieces[k])
    requires i < |LowerNonEmpty(pieces)|
    ensures var w := LowerNonEmpty(pieces)[i]; IsWord(w) && Lowercase(w) == w
    decreases |pieces|
  {
    if pieces[0] == "" {
      LowerNonEmptyWords(pieces[1..], i);
    } else if i > 0 {
      LowerNonEmptyWords(pieces[1..], i - 1);
    } else {
      LowercaseWord(pieces[0]);
    }
  }

  /** Normalizing is idempotent through joining and splitting again. */
  lemma NormalizeIdempotent(code: string, sep: char)
    requires !IsWordChar(sep)
    ensures Normalize(Join(Normalize(code), sep)) == Normalize(code)
  {
    var ws := Normalize(code);
    forall k | 0 <= k < |Split(code)| ensures Split(code)[k] == "" || IsWord(Split(code)[k]) {
      SplitPieces(code, k);
    }
    forall i | 0 <= i < |ws| ensures IsWord(ws[i]) && Lowercase(ws[i]) == ws[i] {
      LowerNonEmptyWords(Split(code), i);
    }
    NormalizeJoin(ws, sep);
    assert Lowered(ws) == ws;
  }

  // ---- The positional word codec ----

  /** Words are found by first position; valid lists are distinct lower-case words. */
  ghost predicate ValidList(words: seq<string>) {
    && |words| >= BASE
    && (forall i, j :: 0 <= i < j < |words| ==> words[i] != words[j])
    && (forall i :: 0 <= i < |words| ==> IsWord(words[i]) && Lowercase(words[i]) == words[i])
  }

  function WordIndex(words: seq<string>, w: string): (r: Option<nat>)
    ensures r.Some? ==> r.value < |words| && words[r.value] == w
    ensures r.None? ==> w !in words
  {
    if words == [] then None
    else if words[|words| - 1] == w then
      var earlier := WordIndex(words[..|words| - 1], w);
      if earlier.Some? then earlier else Some(|words| - 1)
    else WordIndex(words[..|words| - 1], w)
  }

  function Group4(b: seq<byte>): (x: nat)
    requires |b| == 4
    ensures x < 0x1_0000_0000
  {
    b[0] as int + b[1] as int * 0x100 + b[2] as int * 0x1_0000 + b[3] as int * 0x100_0000
  }

  function Ungroup4(x: nat): (b: seq<byte>)
    requires x < 0x1_0000_0000
    ensures |b| == 4 && Group4(b) == x
  {
    var y := x / 0x100;
    var z := y / 0x100;
    [x % 0x100, y % 0x100, z % 0x100, z / 0x100]
  }

  lemma UngroupGroup(b: seq<byte>)
    requires |b| == 4
    ensures Ungroup4(Group4(b)) == b
  {
    var x := Group4(b);
    assert x / 0x100 == b[1] as int + b[2] as int * 0x100 + b[3] as int * 0x1_0000;
    assert x / 0x1_0000 == b[2] as int + b[3] as int * 0x100;
    assert x / 0x100_0000 == b[3];
  }

  /** Six bytes as five digits: three for the four-byte group, two for the rest. */
  function Digits(b: seq<byte>): (d: seq<nat>)
    requires |b| == 6
    ensures |d| == 5 && forall i :: 0 <= i < 5 ==> d[i] < BASE
    ensures d[4] < LAST_WORDS
  {
    var x, y := Group4(b[..4]), b[4] as int + b[5] as int * 0x100;
    [x % BASE, x / BASE % BASE, x / (BASE * BASE), y % BASE, y / BASE]
  }

  /** `mnemonic::decode`, for five words. */
  function Undigits(d: seq<nat>): (r: Option<seq<byte>>)
    requires |d| == 5
    ensures r.Some? ==> |r.value| == 6
  {
    if exists i :: 0 <= i < 5 && d[i] >= BASE then None
    else
      var x, y := d[0] + d[1] * BASE + d[2] * BASE * BASE, d[3] + d[4] * BASE;
      if x >= 0x1_0000_0000 || y >= 0x1_0000 then None
      else Some(Ungroup4(x) + [y % 0x100, y / 0x100])
  }

  lemma ThreeDigits(x: nat, p: nat, q: nat, r: nat)
    requires p < BASE && q < BASE
    ensures x == p + q * BASE + r * BASE * BASE <==> p == x % BASE && q == x / BASE % BASE && r == x / (BASE * BASE)
  {
    assert x / (BASE * BASE) == x / BASE / BASE;
  }

  lemma TwoDigits(y: nat, p: nat, q: nat)
    requires p < BASE
    ensures y == p + q * BASE <==> p == y % BASE && q == y / BASE
  {
  }

  /** Five digits decode to six bytes exactly when those bytes have those digits. */
  lemma UndigitsIffDigits(d: seq<nat>, b: seq<byte>)
    requires |d| == 5 && |b| == 6
    ensures Undigits(d) == Some(b) <==> d == Digits(b)
  {
    if forall i :: 0 <= i < 5 ==> d[i] < BASE {
      var x, y := Group4(b[..4]), b[4] as int + b[5] as int * 0x100;
      ThreeDigits(x, d[0], d[1], d[2]);
      TwoDigits(y, d[3], d[4]);
      assert d == Digits(b) <==> x == d[0] + d[1] * BASE + d[2] * BASE * BASE && y == d[3] + d[4] * BASE;
      UndigitsBytes(d, b);
    }
  }

  lemma UndigitsBytes(d: seq<nat>, b: seq<byte>)
    requires |d| == 5 && |b| == 6 && forall i :: 0 <= i < 5 ==> d[i] < BASE
    ensures Undigits(d) == Some(b) <==>
            && Group4(b[..4]) == d[0] + d[1] * BASE + d[2] * BASE * BASE
            && b[4] as int + b[5] as int * 0x100 == d[3] + d[4] * BASE
  {
    var x, y := d[0] + d[1] * BASE + d[2] * BASE * BASE, d[3] + d[4] * BASE;
    UngroupGroup(b[..4]);
    assert b == b[..4] + [b[4], b[5]];
    if x < 0x1_0000_0000 && y < 0x1_0000 {
      var out := Ungroup4(x) + [y % 0x100, y / 0x100];
      assert out[..4] == Ungroup4(x);
    }
  }

  // ---- Codes ----

  datatype CodeError = WrongWordCount(got: nat) | UnknownWord(w: string) | LastWordInvalid | ChecksumMismatch | Malformed

  function WordsAt(words: seq<string>, d: seq<nat>): (ws: seq<string>)
    requires forall i :: 0 <= i < |d| ==> d[i] < |words|
    ensures |ws| == |d| && forall i :: 0 <= i < |d| ==> ws[i] == words[d[i]]
  {
    seq(|d|, i requires 0 <= i < |d| => words[d[i]])
  }

  /** The five words that stand for an entropy value. */
  function CodeWords(words: seq<string>, checksum: Checksum, entropy: seq<byte>): (ws: seq<string>)
    requires |entropy| == 5 && |words| >= BASE
    ensures |ws| == 5
  {
    WordsAt(words, Digits(entropy + [checksum(entropy)]))
  }

  /** `mnemonic::to_string` separates words and word groups. */
  const MNEMONIC_GAPS := ["", "-", "-", "--", "-", ""]

  /** `entropy_to_code`. */
  method EntropyToCode(words: seq<string>, checksum: Checksum, entropy: array<byte>) returns (code: string)
    requires entropy.Length == 5 && ValidList(words)
    ensures code == Join(CodeWords(words, checksum, entropy[..]), ' ')
  {
    var input := new byte[6];
    for i := 0 to 5
      invariant input[..i] == entropy[..i]
    {
      input[i] := entropy[i];
    }
    assert entropy[..5] == entropy[..];
    input[5] := checksum(entropy[..]);
    assert input[..5] == entropy[..];
    assert input[..] == entropy[..] + [checksum(entropy[..])];
    var ws := WordsAt(words, Digits(input[..]));
    PrintedWords(words, ws, Digits(input[..]));
    code := Join(Normalize(Spread(ws, MNEMONIC_GAPS)), ' ');
  }

  /** Normalizing what the mnemonic encoder prints gives back its words. */
  lemma PrintedWords(words: seq<string>, ws: seq<string>, d: seq<nat>)
    requires ValidList(words) && |d| == 5 && (forall i :: 0 <= i < 5 ==> d[i] < |words|) && ws == WordsAt(words, d)
    ensures |MNEMONIC_GAPS| == |ws| + 1 && Normalize(Spread(ws, MNEMONIC_GAPS)) == ws
  {
    hide Normalize, Spread, IsWord, Lowercase, Separates;
    MnemonicGapsSeparate(ws);
    forall i | 0 <= i < |ws| ensures IsWord(ws[i]) && Lowercase(ws[i]) == ws[i] {
      assert ws[i] == words[d[i]];
    }
    NormalizeSpread(ws, MNEMONIC_GAPS);
    assert Lowered(ws) == ws;
  }

  lemma MnemonicGapsSeparate(ws: seq<string>)
    requires |ws| == 5
    ensures Separates(ws, MNEMONIC_GAPS)
  {
  }

  function FirstUnknown(words: seq<string>, ws: seq<string>): (r: Option<string>)
    ensures r.None? <==> forall i :: 0 <= i < |ws| ==> WordIndex(words, ws[i]).Some?
  {
    if ws == [] then None
    else if WordIndex(words, ws[0]).None? then Some(ws[0])
    else FirstUnknown(words, ws[1..])
  }

  /** The positions of five known words. */
  function Positions(words: seq<string>, ws: seq<string>): (d: seq<nat>)
    requires |ws| == 5 && FirstUnknown(words, ws).None?
    ensures |d| == 5 && forall i :: 0 <= i < 5 ==> d[i] < |words| && words[d[i]] == ws[i]
  {
    seq(5, i requires 0 <= i < 5 => WordIndex(words, ws[i]).value)
  }

  /** `code_to_entropy` after normalization. */
  function Decode(words: seq<string>, checksum: Checksum, ws: seq<string>): Result<seq<byte>, CodeError> {
    if |ws| != 5 then Err(WrongWordCount(|ws|))
    else if FirstUnknown(words, ws).Some? then Err(UnknownWord(FirstUnknown(words, ws).value))
    else
      var d := Positions(words, ws);
      if d[4] >= LAST_WORDS then Err(LastWordInvalid)
      else
        match Undigits(d)
        case None => Err(Malformed)
        case Some(out) =>
          if checksum(out[..5]) != out[5] then Err(ChecksumMismatch) else Ok(out[..5])
  }

  function CodeToEntropy(words: seq<string>, checksum: Checksum, code: string): Result<seq<byte>, CodeError> {
    Decode(words, checksum, Normalize(code))
  }

  lemma PositionsIffWords(words: seq<string>, ws: seq<string>, d: seq<nat>)
    requires ValidList(words) && |ws| == |d| == 5 && forall i :: 0 <= i < 5 ==> d[i] < |words|
    ensures (FirstUnknown(words, ws).None? && Positions(words, ws) == d) <==> ws == WordsAt(words, d)
  {
    if ws == WordsAt(words, d) {
      forall i | 0 <= i < 5 ensures WordIndex(words, ws[i]) == Some(d[i]) {
        assert ws[i] == words[d[i]] && ws[i] in words;
      }
      assert Positions(words, ws) == d;
    }
  }

  /** A code is accepted for an entropy value if and only if its words, in
      lower case, are the five words of that value. */
  lemma DecodeIffCodeWords(words: seq<string>, checksum: Checksum, code: string, entropy: seq<byte>)
    requires ValidList(words) && |entropy| == 5
    ensures CodeToEntropy(words, checksum, code) == Ok(entropy) <==>
            Normalize(code) == CodeWords(words, checksum, entropy)
  {
    hide Normalize, Digits, Undigits, FirstUnknown, Positions, WordsAt;
    var ws := Normalize(code);
    var full := entropy + [checksum(entropy)];
    assert full[..5] == entropy && full[5] == checksum(entropy);
    if |ws| == 5 {
      var digits := Digits(full);
      PositionsIffWords(words, ws, digits);
      if FirstUnknown(words, ws).None? {
        var d := Positions(words, ws);
        UndigitsIffDigits(d, full);
        if CodeToEntropy(words, checksum, code) == Ok(entropy) {
          var out := Undigits(d).value;
          assert out == out[..5] + [out[5]];
        }
      }
    }
  }

  /** Speaking a code in any case, with any separators, gives the entropy
      back; in particular the printed code does. */
  lemma SpokenRoundTrip(words: seq<string>, checksum: Checksum, entropy: seq<byte>, spoken: seq<string>, gaps: seq<string>)
    requires ValidList(words) && |entropy| == 5
    requires Separates(spoken, gaps) && forall i :: 0 <= i < |spoken| ==> IsWord(spoken[i])
    requires Lowered(spoken) == CodeWords(words, checksum, entropy)
    ensures CodeToEntropy(words, checksum, Spread(spoken, gaps)) == Ok(entropy)
  {
    NormalizeSpread(spoken, gaps);
    DecodeIffCodeWords(words, checksum, Spread(spoken, gaps), entropy);
  }

  lemma PrintedRoundTrip(words: seq<string>, checksum: Checksum, entropy: seq<byte>)
    requires ValidList(words) && |entropy| == 5
    ensures CodeToEntropy(words, checksum, Join(CodeWords(words, checksum, entropy), ' ')) == Ok(entropy)
    ensures exists k :: 0 <= k < LAST_WORDS && CodeWords(words, checksum, entropy)[4] == words[k]
  {
    var ws := CodeWords(words, checksum, entropy);
    NormalizeJoin(ws, ' ');
    assert Lowered(ws) == ws;
    DecodeIffCodeWords(words, checksum, Join(ws, ' '), entropy);
    var d := Digits(entropy + [checksum(entropy)]);
    assert ws[4] == words[d[4]];
  }

  // ---- The published vectors ----

  /** Where five of the published vectors put their words: the first four bytes
      are a little-endian number in base 1626, least digit first, and the last
      byte and the checksum another. The checksum bytes are those of SHA-256. */
  lemma VectorPositions()
    ensures Digits([0x00, 0x00, 0x00, 0x00, 0x00, 136]) == [0, 0, 0, 670, 21]
    ensures Digits([0x01, 0x00, 0x00, 0x00, 0x00, 149]) == [1, 0, 0, 746, 23]
    ensures Digits([0xff, 0xff, 0xff, 0xff, 0xff, 19]) == [489, 807, 1624, 241, 3]
    ensures Digits([0x1a, 0xf3, 0x7a, 0x0c, 0x99, 20]) == [946, 318, 79, 395, 3]
    ensures Digits([0x30, 0xee, 0xc0, 0xf9, 0x2d, 232]) == [1192, 1396, 1584, 901, 36]
  {
    VectorGroups();
  }

  lemma VectorGroups()
    ensures Group4([0x00, 0x00, 0x00, 0x00]) == 0 && Group4([0x01, 0x00, 0x00, 0x00]) == 1
    ensures Group4([0xff, 0xff, 0xff, 0xff]) == 0xffff_ffff
    ensures Group4([0x1a, 0xf3, 0x7a, 0x0c]) == 0x0c7a_f31a
    ensures Group4([0x30, 0xee, 0xc0, 0xf9]) == 0xf9c0_ee30
  {
  }

  /** A word list that has these words at these positions prints the vectors. */
  lemma VectorsAreReproduced(words: seq<string>, checksum: Checksum)
    requires |words| >= BASE
    requires words[0] == "academy" && words[1] == "acrobat" && words[3] == "actor" && words[21] == "alibi" && words[23] == "alien"
    requires words[79] == "boston" && words[318] == "grand" && words[395] == "libra" && words[670] == "siren" && words[746] == "union" && words[946] == "nelson"
    requires checksum([0x00, 0x00, 0x00, 0x00, 0x00]) == 136 && checksum([0x01, 0x00, 0x00, 0x00, 0x00]) == 149
    requires checksum([0x1a, 0xf3, 0x7a, 0x0c, 0x99]) == 20
    ensures CodeWords(words, checksum, [0x00, 0x00, 0x00, 0x00, 0x00]) == ["academy", "academy", "academy", "siren", "alibi"]
    ensures CodeWords(words, checksum, [0x01, 0x00, 0x00, 0x00, 0x00]) == ["acrobat", "academy", "academy", "union", "alien"]
    ensures CodeWords(words, checksum, [0x1a, 0xf3, 0x7a, 0x0c, 0x99]) == ["nelson", "grand", "boston", "libra", "actor"]
  {
    VectorPositions();
    hide Digits;
    assert [0x00, 0x00, 0x00, 0x00, 0x00] + [136 as byte] == [0x00, 0x00, 0x00, 0x00, 0x00, 136];
    assert [0x01, 0x00, 0x00, 0x00, 0x00] + [149 as byte] == [0x01, 0x00, 0x00, 0x00, 0x00, 149];
    assert [0x1a, 0xf3, 0x7a, 0x0c, 0x99] + [20 as byte] == [0x1a, 0xf3, 0x7a, 0x0c, 0x99, 20];
  }
}
