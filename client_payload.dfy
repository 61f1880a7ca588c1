/**
 * Client::getPayload (client.cpp): the part of a received line from the
 * first start-of-payload character onwards, or nothing. QString::section
 * with start 1 and end -1 is modelled by its definition: split the text at
 * every separator, keep the fields from the second to the last, and join
 * them again with the separator.
 */
module ClientPayload {

  /** The fields of s between separators; empty fields are kept, so there is always one. */
  function SplitFields(s: string, sep: char): (r: seq<string>)
    ensures |r| >= 1
    ensures |r| == 1 <==> sep !in s
  {
    if s == [] then [""]
    else if s[0] == sep then [""] + SplitFields(s[1..], sep)
    else
      var rest := SplitFields(s[1..], sep);
      [[s[0]] + rest[0]] + rest[1..]
  }

  /** The parts with sep between each pair: it starts with the first part, then a separator. */
  function JoinFields(parts: seq<string>, sep: char): (r: string)
    requires |parts| > 0
    ensures parts[0] <= r
    ensures |parts| > 1 ==> |r| > |parts[0]| && r[|parts[0]|] == sep
  {
    if |parts| == 1 then parts[0] else parts[0] + [sep] + JoinFields(parts[1..], sep)
  }

  /** QString::section(sep, 1, -1): the second to the last field, joined by sep. */
  function SectionFromSecond(s: string, sep: char): (r: string)
    ensures sep !in s ==> r == ""
  {
    var fields := SplitFields(s, sep);
    if |fields| < 2 then "" else JoinFields(fields[1..], sep)
  }

  /** getPayload: the start character and the section after it, when that section is not empty. */
  function GetPayload(data: string, startOfPayload: char): (payload: string)
    ensures payload == "" || (|payload| >= 2 && payload[0] == startOfPayload)
    ensures startOfPayload !in data ==> payload == ""
  {
    var rest := SectionFromSecond(data, startOfPayload);
    if |rest| > 0 then [startOfPayload] + rest else ""
  }

  /** The position of the first c in s. */
  function FirstIndex(s: string, c: char): (i: nat)
    requires c in s
    ensures i < |s| && s[i] == c && forall j :: 0 <= j < i ==> s[j] != c
  {
    if s[0] == c then 0 else 1 + FirstIndex(s[1..], c)
  }

  /** Splitting and joining again gives the text back. */
  lemma {:induction false} SplitThenJoin(s: string, sep: char)
    ensures JoinFields(SplitFields(s, sep), sep) == s
    decreases |s|
  {
    if s != [] {
      SplitThenJoin(s[1..], sep);
      if s[0] == sep {
        JoinAfterSeparator(s, sep);
      } else {
        JoinAfterOther(s, sep);
      }
    }
  }

  lemma JoinAfterSeparator(s: string, sep: char)
    requires s != [] && s[0] == sep
    requires JoinFields(SplitFields(s[1..], sep), sep) == s[1..]
    ensures JoinFields(SplitFields(s, sep), sep) == s
  {
    var rest := SplitFields(s[1..], sep);
    var fields := SplitFields(s, sep);
    assert fields == [""] + rest;
    assert fields[1..] == rest;
    var joined := JoinFields(fields, sep);
    assert joined == fields[0] + [sep] + JoinFields(rest, sep);
    assert joined == [sep] + s[1..];
    assert s == [sep] + s[1..];
  }

  lemma JoinAfterOther(s: string, sep: char)
    requires s != [] && s[0] != sep
    requires JoinFields(SplitFields(s[1..], sep), sep) == s[1..]
    ensures JoinFields(SplitFields(s, sep), sep) == s
  {
    var rest := SplitFields(s[1..], sep);
    var fields := [[s[0]] + rest[0]] + rest[1..];
    assert SplitFields(s, sep) == fields;
    JoinPrepend(s[0], rest, sep);
    assert s == [s[0]] + s[1..];
  }

  /** Putting a character in front of the first field puts it in front of the join. */
  lemma JoinPrepend(c: char, parts: seq<string>, sep: char)
    requires |parts| > 0
    ensures JoinFields([[c] + parts[0]] + parts[1..], sep) == [c] + JoinFields(parts, sep)
  {
    var fields := [[c] + parts[0]] + parts[1..];
    if |parts| > 1 {
      assert fields[1..] == parts[1..];
      var tail := JoinFields(parts[1..], sep);
      calc {
        JoinFields(fields, sep);
        ([c] + parts[0]) + [sep] + tail;
        [c] + (parts[0] + [sep] + tail);
        [c] + JoinFields(parts, sep);
      }
    }
  }

  /** The section is what follows the first separator, and empty when there is none. */
  lemma {:induction false} SectionIsTextAfterFirst(s: string, sep: char)
    ensures sep !in s ==> SectionFromSecond(s, sep) == ""
    ensures sep in s ==> SectionFromSecond(s, sep) == s[FirstIndex(s, sep) + 1..]
    decreases |s|
  {
    if s != [] && sep in s {
      var rest := SplitFields(s[1..], sep);
      if s[0] == sep {
        assert SplitFields(s, sep)[1..] == rest;
        SplitThenJoin(s[1..], sep);
      } else {
        assert s[1..][FirstIndex(s[1..], sep)] == sep;
        assert sep in s[1..];
        assert SplitFields(s, sep)[1..] == rest[1..];
        SectionIsTextAfterFirst(s[1..], sep);
        assert s[1..][FirstIndex(s[1..], sep) + 1..] == s[FirstIndex(s, sep) + 1..];
      }
    }
  }

  /** A line without the start character has no payload. */
  lemma NoStartNoPayload(data: string, c: char)
    requires c !in data
    ensures GetPayload(data, c) == ""
  {
    SectionIsTextAfterFirst(data, c);
  }

  /** From the first start character on, when it is not the last character. */
  lemma PayloadIsSuffixFromFirstStart(data: string, c: char)
    requires c in data && FirstIndex(data, c) < |data| - 1
    ensures GetPayload(data, c) == data[FirstIndex(data, c)..]
  {
    SectionIsTextAfterFirst(data, c);
    var i := FirstIndex(data, c);
    assert data[i..] == [c] + data[i + 1..];
  }

  /** A start character that ends the line opens an empty payload, which is dropped. */
  lemma StartAtEndNoPayload(data: string, c: char)
    requires c in data && FirstIndex(data, c) == |data| - 1
    ensures GetPayload(data, c) == ""
  {
    SectionIsTextAfterFirst(data, c);
  }

  /** The payload is empty or a suffix of the line that starts with the start character. */
  lemma PayloadShape(data: string, c: char)
    ensures var p := GetPayload(data, c);
      p == "" || (|p| >= 2 && p[0] == c && exists k :: 0 <= k < |data| && p == data[k..])
  {
    SectionIsTextAfterFirst(data, c);
    if c in data && FirstIndex(data, c) < |data| - 1 {
      PayloadIsSuffixFromFirstStart(data, c);
    }
  }

  /** Extracting the payload of a payload changes nothing. */
  lemma PayloadIdempotent(data: string, c: char)
    ensures GetPayload(GetPayload(data, c), c) == GetPayload(data, c)
  {
    var p := GetPayload(data, c);
    PayloadShape(data, c);
    if p != "" {
      assert c in p by { assert p[0] == c; }
      assert FirstIndex(p, c) == 0;
      PayloadIsSuffixFromFirstStart(p, c);
    } else {
      assert c !in p;
      NoStartNoPayload(p, c);
    }
  }

  /** A line as the client receives it: the text before the object is dropped. */
  lemma ReplyLineScenario()
    ensures GetPayload("OK {}", '{') == "{}"
  {
    var line := "OK {}";
    assert line[0] != '{' && line[1] != '{' && line[2] != '{' && line[3] == '{';
    assert FirstIndex(line[3..], '{') == 0;
    assert FirstIndex(line[2..], '{') == 1;
    assert FirstIndex(line[1..], '{') == 2;
    assert FirstIndex(line, '{') == 3;
    PayloadIsSuffixFromFirstStart(line, '{');
    assert line[3..] == "{}";
  }
}
