/**
 The text the popup builds when it exports a transcript (downloadTranscript
 in popup.js): a filesystem-safe version of the video title, the download
 file name, and the file content, a ten-line metadata header followed by the
 selected transcript text.

 A `string` is a sequence of Unicode characters. JavaScript strings are
 sequences of UTF-16 code units, and where that makes a difference (the
 regex replacement and `substring` on the title) the model encodes the
 string into code units explicitly.
 */
module Export {

  // ---------------------------------------------------------------------------
  // UTF-16

  /** A UTF-16 code unit, the element of a JavaScript string. */
  newtype CodeUnit = x: int | 0 <= x < 0x1_0000

  /**
   The UTF-16 encoding of one character: the character itself below
   U+10000, otherwise a high surrogate followed by a low surrogate.
   */
  function EncodeChar(c: char): (u: seq<CodeUnit>)
    ensures c as int < 0x1_0000 ==> u == [c as int as CodeUnit]
    ensures c as int >= 0x1_0000 ==>
      && |u| == 2
      && 0xD800 <= u[0] as int < 0xDC00 && 0xDC00 <= u[1] as int < 0xE000
      && c as int == 0x1_0000 + (u[0] as int - 0xD800) * 0x400 + (u[1] as int - 0xDC00)
  {
    var n := c as int;
    if n < 0x1_0000 then [n as CodeUnit]
    else [(0xD800 + (n - 0x1_0000) / 0x400) as CodeUnit, (0xDC00 + (n - 0x1_0000) % 0x400) as CodeUnit]
  }

  /** The code units JavaScript holds for a string. */
  function Utf16(s: string): (u: seq<CodeUnit>)
    ensures |u| >= |s|
  {
    if s == [] then [] else EncodeChar(s[0]) + Utf16(s[1..])
  }

  /** A string of characters below U+10000 is encoded one code unit per character. */
  lemma {:induction false} Utf16OfBmp(s: string)
    requires forall i :: 0 <= i < |s| ==> s[i] as int < 0x1_0000
    ensures |Utf16(s)| == |s|
    ensures forall i :: 0 <= i < |s| ==> Utf16(s)[i] as int == s[i] as int
  {
    if s != [] {
      Utf16OfBmp(s[1..]);
      assert Utf16(s) == [s[0] as int as CodeUnit] + Utf16(s[1..]);
    }
  }

  // ---------------------------------------------------------------------------
  // Safe title: title.replace(/[^a-z0-9]/gi, "_").toLowerCase().substring(0, 50)

  const MaxTitleLength := 50
  const Underscore: CodeUnit := '_' as int as CodeUnit

  /** The code units matched by `[a-z0-9]` under the `i` flag. */
  predicate IsAsciiAlnum(u: CodeUnit) {
    var n := u as int;
    'a' as int <= n <= 'z' as int || 'A' as int <= n <= 'Z' as int || '0' as int <= n <= '9' as int
  }

  /** The characters a safe title may contain. */
  predicate IsSafeChar(c: char) {
    'a' <= c <= 'z' || '0' <= c <= '9' || c == '_'
  }

  /** Lower-casing of one code unit; exact on the ASCII code units it is applied to here. */
  function LowerAscii(u: CodeUnit): CodeUnit {
    if 'A' as int <= u as int <= 'Z' as int then u + ('a' as int - 'A' as int) as CodeUnit else u
  }

  /** The character each title code unit becomes in the safe title. */
  function SafeChar(u: CodeUnit): char {
    if IsAsciiAlnum(u) then LowerAscii(u) as int as char else '_'
  }

  /** The global regex replacement: every code unit outside `[a-zA-Z0-9]` becomes `_`. */
  function ReplaceNonAlnum(s: seq<CodeUnit>): (r: seq<CodeUnit>)
    ensures |r| == |s|
    ensures forall i :: 0 <= i < |s| ==> r[i] == (if IsAsciiAlnum(s[i]) then s[i] else Underscore)
  {
    if s == [] then [] else [if IsAsciiAlnum(s[0]) then s[0] else Underscore] + ReplaceNonAlnum(s[1..])
  }

  /** toLowerCase: upper-case ASCII letters become lower-case, all else is kept. */
  function ToLowerCase(s: seq<CodeUnit>): (r: seq<CodeUnit>)
    ensures |r| == |s|
    ensures forall i :: 0 <= i < |s| ==> r[i] == LowerAscii(s[i])
  {
    if s == [] then [] else [LowerAscii(s[0])] + ToLowerCase(s[1..])
  }

  /** substring(0, n): the first n code units, or all of them if there are fewer. */
  function Prefix(s: seq<CodeUnit>, n: nat): (r: seq<CodeUnit>)
    ensures |r| == if |s| < n then |s| else n
    ensures forall i :: 0 <= i < |r| ==> r[i] == s[i]
  {
    if |s| <= n then s else s[..n]
  }

  /** Reads ASCII code units back as a string. */
  function AsciiString(s: seq<CodeUnit>): (r: string)
    requires forall i :: 0 <= i < |s| ==> s[i] < 0x80
    ensures |r| == |s|
    ensures forall i :: 0 <= i < |s| ==> r[i] as int == s[i] as int
  {
    if s == [] then [] else [s[0] as int as char] + AsciiString(s[1..])
  }

  /**
   The safe title, measured in UTF-16 code units as JavaScript measures it:
   a character outside the Basic Multilingual Plane (an emoji, say) counts
   twice and becomes two underscores.
   */
  function SafeTitle(title: string): (r: string)
    ensures var u := Utf16(title);
      && |r| == (if |u| < MaxTitleLength then |u| else MaxTitleLength)
      && forall i :: 0 <= i < |r| ==> r[i] == SafeChar(u[i])
    ensures forall i :: 0 <= i < |r| ==> IsSafeChar(r[i])
  {
    var u := Prefix(ToLowerCase(ReplaceNonAlnum(Utf16(title))), MaxTitleLength);
    AsciiString(u)
  }

  /** Sanitising a safe title again changes nothing. */
  lemma SafeTitleIdempotent(title: string)
    ensures SafeTitle(SafeTitle(title)) == SafeTitle(title)
  {
    var r := SafeTitle(title);
    Utf16OfBmp(r);
    var rr := SafeTitle(r);
    forall i | 0 <= i < |r| ensures rr[i] == r[i] {
      assert IsSafeChar(r[i]);
    }
  }

  /** A title made only of lower-case letters, digits and underscores, at most 50 long, is kept as it is. */
  lemma SafeTitleKeepsSafe(title: string)
    requires |title| <= MaxTitleLength
    requires forall i :: 0 <= i < |title| ==> IsSafeChar(title[i])
    ensures SafeTitle(title) == title
  {
    Utf16OfBmp(title);
    var r := SafeTitle(title);
    forall i | 0 <= i < |r| ensures r[i] == title[i] {
      assert IsSafeChar(title[i]);
    }
  }

  /** A character outside the Basic Multilingual Plane becomes two underscores. */
  lemma AstralCharBecomesTwoUnderscores(c: char)
    requires c as int >= 0x1_0000
    ensures SafeTitle([c]) == "__"
  {
    assert Utf16([c]) == EncodeChar(c) + Utf16([]);
    var r := SafeTitle([c]);
    assert r[0] == '_' && r[1] == '_';
  }

  // ---------------------------------------------------------------------------
  // Download file name

  const FilenamePrefix := "youtube_transcript_"
  const FilenameSuffix := ".txt"

  /**
   The download file name: the fixed prefix, the safe title, an underscore,
   the video id and `.txt`. Both the safe title and the video id can be read
   back from the name at known positions.
   */
  function DownloadFilename(title: string, videoId: string): (name: string)
    ensures var t := SafeTitle(title);
      && |name| == |FilenamePrefix| + |t| + 1 + |videoId| + |FilenameSuffix|
      && name[..|FilenamePrefix|] == FilenamePrefix
      && name[|FilenamePrefix|..|FilenamePrefix| + |t|] == t
      && name[|FilenamePrefix| + |t|] == '_'
      && name[|FilenamePrefix| + |t| + 1..|name| - |FilenameSuffix|] == videoId
      && name[|name| - |FilenameSuffix|..] == FilenameSuffix
  {
    var t := SafeTitle(title);
    var name := FilenamePrefix + t + "_" + videoId + FilenameSuffix;
    assert name[..|FilenamePrefix|] == FilenamePrefix;
    assert name[|FilenamePrefix|..|FilenamePrefix| + |t|] == t;
    assert name[|FilenamePrefix| + |t| + 1..|name| - |FilenameSuffix|] == videoId;
    assert name[|name| - |FilenameSuffix|..] == FilenameSuffix;
    name
  }

  // ---------------------------------------------------------------------------
  // Array.prototype.join and its inverse on line breaks

  /** parts.join(sep) */
  function Join(parts: seq<string>, sep: string): string
    decreases |parts|
  {
    if |parts| == 0 then ""
    else if |parts| == 1 then parts[0]
    else parts[0] + sep + Join(parts[1..], sep)
  }

  /** Splits a string at every line break; the inverse of joining with "\n". */
  function SplitLines(s: string): (lines: seq<string>)
    ensures |lines| >= 1
    decreases |s|
  {
    if s == [] then [""]
    else if s[0] == '\n' then [""] + SplitLines(s[1..])
    else
      var rest := SplitLines(s[1..]);
      [[s[0]] + rest[0]] + rest[1..]
  }

  predicate NoLineBreak(s: string) {
    '\n' !in s
  }

  lemma {:induction false} SplitLinesOneLine(a: string, b: string)
    requires NoLineBreak(a)
    ensures SplitLines(a + b) == [a + SplitLines(b)[0]] + SplitLines(b)[1..]
    decreases |a|
  {
    if a != [] {
      assert (a + b)[1..] == a[1..] + b;
      assert (a + b)[0] == a[0];
      SplitLinesOneLine(a[1..], b);
      assert [a[0]] + (a[1..] + SplitLines(b)[0]) == a + SplitLines(b)[0];
    } else {
      var l := SplitLines(b);
      assert a + b == b;
      assert a + l[0] == l[0];
      assert [l[0]] + l[1..] == l;
    }
  }

  /** Joining lines that hold no line break with "\n" and splitting again gives the lines back. */
  lemma {:induction false} SplitJoin(lines: seq<string>)
    requires |lines| >= 1
    requires forall line :: line in lines ==> NoLineBreak(line)
    ensures SplitLines(Join(lines, "\n")) == lines
    decreases |lines|
  {
    if |lines| == 1 {
      SplitLinesOneLine(lines[0], "");
      assert lines[0] + "" == lines[0];
    } else {
      var rest := Join(lines[1..], "\n");
      assert Join(lines, "\n") == lines[0] + ("\n" + rest);
      SplitLinesOneLine(lines[0], "\n" + rest);
      assert ("\n" + rest)[1..] == rest;
      SplitJoin(lines[1..]);
      assert SplitLines("\n" + rest) == [""] + lines[1..];
      assert lines[0] + "" == lines[0];
      assert lines == [lines[0]] + lines[1..];
    }
  }

  // ---------------------------------------------------------------------------
  // Decimal rendering of numbers in template literals

  function DigitChar(d: nat): char
    requires d < 10
  {
    ('0' as int + d) as char
  }

  /** The decimal digits of n, most significant first, without leading zeros. */
  function NatToDecimal(n: nat): (s: string)
    ensures |s| >= 1
    ensures forall i :: 0 <= i < |s| ==> '0' <= s[i] <= '9'
    ensures s[0] == '0' <==> n == 0
    decreases n
  {
    if n < 10 then [DigitChar(n)] else NatToDecimal(n / 10) + [DigitChar(n % 10)]
  }

  /** `${n}` for an integer n. */
  function IntToDecimal(n: int): (s: string)
    ensures NoLineBreak(s)
  {
    if n < 0 then "-" + NatToDecimal(-n) else NatToDecimal(n)
  }

  /** Reads a string of decimal digits back as a number. */
  function ParseDecimal(s: string): nat
    requires forall i :: 0 <= i < |s| ==> '0' <= s[i] <= '9'
    decreases |s|
  {
    if s == [] then 0 else 10 * ParseDecimal(s[..|s| - 1]) + (s[|s| - 1] as int - '0' as int)
  }

  /** Rendering a natural number in decimal and reading it back is the identity. */
  lemma {:induction false} DecimalRoundTrip(n: nat)
    ensures ParseDecimal(NatToDecimal(n)) == n
    decreases n
  {
    if n >= 10 {
      var s := NatToDecimal(n);
      assert s[..|s| - 1] == NatToDecimal(n / 10);
      DecimalRoundTrip(n / 10);
    }
  }

  // ---------------------------------------------------------------------------
  // File content

  const HeaderTitle := "YouTube Transcript"
  const TranscriptMarker := "--- TRANSCRIPT ---"

  /** The label of a transcript's caption type. */
  function TypeLabel(isAutoGenerated: bool): string {
    if isAutoGenerated then "Auto-generated" else "Manual"
  }

  /** The ten metadata lines, in order; `extractedAt` is the formatted local time. */
  function MetadataLines(title: string, videoId: string, language: string, isAutoGenerated: bool,
                         wordCount: int, extractedAt: string): (lines: seq<string>)
    ensures |lines| == 10
    ensures lines[0] == HeaderTitle && lines[8] == TranscriptMarker
    ensures lines[7] == "" && lines[9] == ""
  {
    [ HeaderTitle,
      "Video: " + title,
      "Video ID: " + videoId,
      "Language: " + language,
      "Type: " + TypeLabel(isAutoGenerated),
      "Word Count: " + IntToDecimal(wordCount),
      "Extracted: " + extractedAt,
      "",
      TranscriptMarker,
      "" ]
  }

  /** The metadata header followed by the transcript text. */
  function FileContent(title: string, videoId: string, language: string, isAutoGenerated: bool,
                       wordCount: int, extractedAt: string, text: string): string
  {
    Join(MetadataLines(title, videoId, language, isAutoGenerated, wordCount, extractedAt), "\n") + text
  }

  /** Joining is appending the separator and the last part to the join of the others. */
  lemma {:induction false} JoinSnoc(parts: seq<string>, sep: string)
    requires |parts| >= 2
    ensures Join(parts, sep) == Join(parts[..|parts| - 1], sep) + sep + parts[|parts| - 1]
    decreases |parts|
  {
    var n := |parts|;
    if n > 2 {
      var tail := parts[1..];
      JoinSnoc(tail, sep);
      assert tail[..|tail| - 1] == parts[..n - 1][1..];
      assert tail[|tail| - 1] == parts[n - 1];
    } else {
      assert parts[..1] == [parts[0]];
    }
  }

  /** A joined string begins with its first part and the separator. */
  lemma JoinStartsWith(parts: seq<string>, sep: string)
    requires |parts| >= 2
    ensures |Join(parts, sep)| >= |parts[0]| + |sep|
    ensures Join(parts, sep)[..|parts[0]| + |sep|] == parts[0] + sep
  {
    var rest := Join(parts[1..], sep);
    assert Join(parts, sep) == (parts[0] + sep) + rest;
  }

  /** A joined string whose last part is empty ends with the separator, the next-to-last part and the separator. */
  lemma JoinEndsWith(parts: seq<string>, sep: string)
    requires |parts| >= 3 && parts[|parts| - 1] == ""
    ensures var j := Join(parts, sep); var tail := sep + parts[|parts| - 2] + sep;
      |j| >= |tail| && j[|j| - |tail|..] == tail
  {
    var n := |parts|;
    var init := parts[..n - 1];
    JoinSnoc(parts, sep);
    JoinSnoc(init, sep);
    assert init[..n - 2] == parts[..n - 2];
    var front := Join(parts[..n - 2], sep);
    var tail := sep + parts[n - 2] + sep;
    assert Join(parts, sep) == front + tail;
  }

  lemma Appended(prefix: string, s: string)
    requires NoLineBreak(prefix) && NoLineBreak(s)
    ensures NoLineBreak(prefix + s)
  {
  }

  /** Ten header lines hold no line break when the six variable ones hold none. */
  lemma HeaderLinesUnbroken(l1: string, l2: string, l3: string, l4: string, l5: string, l6: string)
    requires NoLineBreak(l1) && NoLineBreak(l2) && NoLineBreak(l3)
    requires NoLineBreak(l4) && NoLineBreak(l5) && NoLineBreak(l6)
    ensures forall line :: line in [HeaderTitle, l1, l2, l3, l4, l5, l6, "", TranscriptMarker, ""] ==> NoLineBreak(line)
  {
    assert NoLineBreak(HeaderTitle) && NoLineBreak(TranscriptMarker) && NoLineBreak("");
  }

  lemma TypeLineUnbroken(isAutoGenerated: bool)
    ensures NoLineBreak("Type: " + TypeLabel(isAutoGenerated))
  {
    Appended("Type: ", TypeLabel(isAutoGenerated));
  }

  lemma CountLineUnbroken(wordCount: int)
    ensures NoLineBreak("Word Count: " + IntToDecimal(wordCount))
  {
    Appended("Word Count: ", IntToDecimal(wordCount));
  }

  /** No metadata line holds a line break when no field does. */
  lemma MetadataLinesUnbroken(title: string, videoId: string, language: string, isAutoGenerated: bool,
                              wordCount: int, extractedAt: string)
    requires NoLineBreak(title) && NoLineBreak(videoId) && NoLineBreak(language) && NoLineBreak(extractedAt)
    ensures var lines := MetadataLines(title, videoId, language, isAutoGenerated, wordCount, extractedAt);
      forall line :: line in lines ==> NoLineBreak(line)
  {
    Appended("Video: ", title);
    Appended("Video ID: ", videoId);
    Appended("Language: ", language);
    TypeLineUnbroken(isAutoGenerated);
    CountLineUnbroken(wordCount);
    Appended("Extracted: ", extractedAt);
    HeaderLinesUnbroken("Video: " + title, "Video ID: " + videoId, "Language: " + language,
                        "Type: " + TypeLabel(isAutoGenerated), "Word Count: " + IntToDecimal(wordCount),
                        "Extracted: " + extractedAt);
  }

  /** When no field holds a line break, the joined metadata splits back into exactly the ten lines. */
  lemma MetadataSplits(title: string, videoId: string, language: string, isAutoGenerated: bool,
                       wordCount: int, extractedAt: string)
    requires NoLineBreak(title) && NoLineBreak(videoId) && NoLineBreak(language) && NoLineBreak(extractedAt)
    ensures var lines := MetadataLines(title, videoId, language, isAutoGenerated, wordCount, extractedAt);
      SplitLines(Join(lines, "\n")) == lines
  {
    MetadataLinesUnbroken(title, videoId, language, isAutoGenerated, wordCount, extractedAt);
    SplitJoin(MetadataLines(title, videoId, language, isAutoGenerated, wordCount, extractedAt));
  }

  /**
   A metadata header begins with its title line and a line break, and ends
   with a line break, the marker line and a line break.
   */
  lemma HeaderShape(lines: seq<string>)
    requires |lines| >= 3 && lines[0] == HeaderTitle
    requires lines[|lines| - 2] == TranscriptMarker && lines[|lines| - 1] == ""
    ensures var header := Join(lines, "\n");
      && |header| >= |HeaderTitle| + 1 && |header| >= |TranscriptMarker| + 2
      && header[..|HeaderTitle| + 1] == HeaderTitle + "\n"
      && header[|header| - |TranscriptMarker| - 2..] == "\n" + TranscriptMarker + "\n"
  {
    JoinStartsWith(lines, "\n");
    JoinEndsWith(lines, "\n");
  }

  /**
   The content begins with "YouTube Transcript\n", its header ends with
   "\n--- TRANSCRIPT ---\n", and the selected text follows the header unchanged.
   */
  lemma ContentShape(title: string, videoId: string, language: string, isAutoGenerated: bool,
                     wordCount: int, extractedAt: string, text: string)
    ensures var header := Join(MetadataLines(title, videoId, language, isAutoGenerated, wordCount, extractedAt), "\n");
      var content := FileContent(title, videoId, language, isAutoGenerated, wordCount, extractedAt, text);
      && |header| >= |HeaderTitle| + 1 && |header| >= |TranscriptMarker| + 2
      && content[..|HeaderTitle| + 1] == HeaderTitle + "\n"
      && header[|header| - |TranscriptMarker| - 2..] == "\n" + TranscriptMarker + "\n"
      && content[..|header|] == header
      && content[|header|..] == text
  {
    var lines := MetadataLines(title, videoId, language, isAutoGenerated, wordCount, extractedAt);
    HeaderShape(lines);
    var header := Join(lines, "\n");
    assert (header + text)[..|HeaderTitle| + 1] == header[..|HeaderTitle| + 1];
  }
}
