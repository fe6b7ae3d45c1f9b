/**
 * File-type strings of the form "<ms type>.<file format>" (MSFileInfo):
 * getType joins the two parts, getMSType and getMSFormat take them apart
 * again with Java's String.split on a literal dot.
 */
module MsFileInfo {
  const MsFile: string := "MS"
  const MsFullFile: string := "MSFULL"
  const MzXmlFormat: string := "mzXML"
  const MzMlFormat: string := "mzML"
  const RawFormat: string := "RAW"

  /** getType: the two parts joined by a dot. */
  function GetType(msType: string, fileType: string): (r: string)
    ensures |r| == |msType| + 1 + |fileType|
    ensures r[..|msType|] == msType && r[|msType|] == '.' && r[|msType| + 1..] == fileType
  {
    msType + "." + fileType
  }

  /** All pieces of `s` between dots, empty pieces included (n dots give n + 1 pieces). */
  function Pieces(s: string): (ps: seq<string>)
    ensures |ps| >= 1
  {
    if |s| == 0 then [""]
    else
      var rest := Pieces(s[1..]);
      if s[0] == '.' then [""] + rest else [[s[0]] + rest[0]] + rest[1..]
  }

  function DropTrailingEmpty(ps: seq<string>): seq<string>
  {
    if |ps| > 0 && ps[|ps| - 1] == "" then DropTrailingEmpty(ps[..|ps| - 1]) else ps
  }

  /**
   * String.split("\\."): the pieces with trailing empty ones removed; an input
   * without any dot comes back whole, even when it is empty.
   */
  function SplitOnDot(s: string): seq<string>
  {
    if '.' !in s then [s] else DropTrailingEmpty(Pieces(s))
  }

  /** getMSType: the first of exactly two tokens, otherwise the input unchanged. */
  function GetMSType(sType: string): (r: string)
    ensures r == sType || ('.' !in r && r + "." <= sType)
  {
    var toks := SplitOnDot(sType);
    if |toks| != 2 then sType
    else
      TwoTokens(sType);
      toks[0]
  }

  /** getMSFormat: the second of exactly two tokens, otherwise the input unchanged. */
  function GetMSFormat(sType: string): (r: string)
    ensures r == sType || ('.' !in r && r != "" && GetMSType(sType) + "." + r <= sType)
  {
    var toks := SplitOnDot(sType);
    if |toks| != 2 then sType
    else
      TwoTokens(sType);
      toks[1]
  }

  /** Two tokens are two dot-free pieces, the second non-empty, that begin the input. */
  lemma TwoTokens(s: string)
    requires |SplitOnDot(s)| == 2
    ensures var toks := SplitOnDot(s);
      '.' !in toks[0] && '.' !in toks[1] && toks[1] != "" && toks[0] + "." + toks[1] <= s
  {
    var ps := Pieces(s);
    assert '.' in s;
    DropTrailingEmptyPrefix(ps);
    DropTrailingEmptyLast(ps);
    PiecesDotFree(s);
    SecondPieceFollowsFirst(s);
    var toks := SplitOnDot(s);
    assert toks[0] == ps[0] && toks[1] == ps[1];
  }

  lemma {:induction false} PiecesDotFree(s: string)
    ensures forall k :: 0 <= k < |Pieces(s)| ==> '.' !in Pieces(s)[k]
  {
    if |s| > 0 {
      PiecesDotFree(s[1..]);
    }
  }

  /** The pieces of a dot-free string: the string itself. */
  lemma {:induction false} PiecesOfDotFree(s: string)
    requires '.' !in s
    ensures Pieces(s) == [s]
  {
    if |s| > 0 {
      assert '.' !in s[1..] by {
        forall k | 0 <= k < |s[1..]| ensures s[1..][k] != '.' {
          assert s[1..][k] == s[k + 1];
        }
      }
      PiecesOfDotFree(s[1..]);
      assert [s[0]] + s[1..] == s;
    }
  }

  /** A dot-free part and a dot in front of `rest` make one more piece. */
  lemma {:induction false} PiecesAfterDot(a: string, rest: string)
    requires '.' !in a
    ensures Pieces(a + "." + rest) == [a] + Pieces(rest)
  {
    var s := a + "." + rest;
    if |a| == 0 {
      assert s == "." + rest;
      assert s[1..] == rest;
    } else {
      assert s[1..] == a[1..] + "." + rest;
      assert '.' !in a[1..] by {
        forall k | 0 <= k < |a[1..]| ensures a[1..][k] != '.' {
          assert a[1..][k] == a[k + 1];
        }
      }
      PiecesAfterDot(a[1..], rest);
      assert [a[0]] + a[1..] == a;
    }
  }

  /** The second piece follows the first piece and its dot. */
  lemma {:induction false} SecondPieceFollowsFirst(s: string)
    ensures |Pieces(s)| >= 2 ==> Pieces(s)[0] + "." + Pieces(s)[1] <= s
  {
    if |s| > 0 {
      assert s == [s[0]] + s[1..];
      if s[0] == '.' {
        FirstPieceOfAll(s[1..]);
      } else {
        SecondPieceFollowsFirst(s[1..]);
      }
    }
  }

  lemma {:induction false} FirstPieceOfAll(s: string)
    ensures Pieces(s)[0] <= s
  {
    if |s| > 0 && s[0] != '.' {
      FirstPieceOfAll(s[1..]);
      assert s == [s[0]] + s[1..];
    }
  }

  lemma {:induction false} DropTrailingEmptyPrefix(ps: seq<string>)
    ensures DropTrailingEmpty(ps) <= ps
  {
    if |ps| > 0 && ps[|ps| - 1] == "" {
      DropTrailingEmptyPrefix(ps[..|ps| - 1]);
    }
  }

  lemma {:induction false} DropTrailingEmptyLast(ps: seq<string>)
    ensures var d := DropTrailingEmpty(ps); |d| == 0 || d[|d| - 1] != ""
  {
    if |ps| > 0 && ps[|ps| - 1] == "" {
      DropTrailingEmptyLast(ps[..|ps| - 1]);
    }
  }

  /** Two dot-free parts joined by getType split back into exactly those parts. */
  lemma PiecesOfJoined(msType: string, fileType: string)
    requires '.' !in msType && '.' !in fileType
    ensures Pieces(GetType(msType, fileType)) == [msType, fileType]
  {
    PiecesAfterDot(msType, fileType);
    PiecesOfDotFree(fileType);
  }

  /**
   * getMSType and getMSFormat invert getType, for a dot-free type and a
   * dot-free, non-empty format (an empty format is a trailing empty token,
   * which split drops).
   */
  lemma RoundTrip(msType: string, fileType: string)
    requires '.' !in msType && '.' !in fileType && fileType != ""
    ensures GetMSType(GetType(msType, fileType)) == msType
    ensures GetMSFormat(GetType(msType, fileType)) == fileType
  {
    var s := GetType(msType, fileType);
    PiecesOfJoined(msType, fileType);
    assert s[|msType|] == '.';
    assert SplitOnDot(s) == [msType, fileType];
  }

  /** Without a dot there is nothing to split: both accessors return the input. */
  lemma NoDotUnchanged(sType: string)
    requires '.' !in sType
    ensures GetMSType(sType) == sType && GetMSFormat(sType) == sType
  {
  }

  /** An empty format is lost: "MS." is returned unchanged by both. */
  lemma EmptyFormatNotSplit()
    ensures GetMSType(GetType(MsFile, "")) == GetType(MsFile, "")
    ensures GetMSFormat(GetType(MsFile, "")) == GetType(MsFile, "")
  {
    var s := GetType(MsFile, "");
    PiecesOfJoined(MsFile, "");
    assert s[2] == '.';
    var ps := [MsFile, ""];
    assert ps[..1] == [MsFile];
    assert DropTrailingEmpty(ps) == DropTrailingEmpty([MsFile]);
    assert DropTrailingEmpty([MsFile]) == [MsFile];
    assert '.' in s;
    assert SplitOnDot(s) == [MsFile];
  }

  /** A trailing dot is dropped with the empty token it ends: "MS.mzXML." still splits. */
  lemma TrailingDotIgnored()
    ensures GetMSType(GetType(GetType(MsFile, MzXmlFormat), "")) == MsFile
    ensures GetMSFormat(GetType(GetType(MsFile, MzXmlFormat), "")) == MzXmlFormat
  {
    var s := GetType(GetType(MsFile, MzXmlFormat), "");
    assert s == MsFile + "." + (MzXmlFormat + "." + "");
    PiecesAfterDot(MsFile, MzXmlFormat + "." + "");
    PiecesAfterDot(MzXmlFormat, "");
    var ps := [MsFile, MzXmlFormat, ""];
    assert Pieces(s) == ps;
    assert s[2] == '.';
    assert ps[..2] == [MsFile, MzXmlFormat];
    assert DropTrailingEmpty(ps) == DropTrailingEmpty([MsFile, MzXmlFormat]);
    assert DropTrailingEmpty([MsFile, MzXmlFormat]) == [MsFile, MzXmlFormat];
    assert '.' in s;
    assert SplitOnDot(s) == [MsFile, MzXmlFormat];
  }

  /** Three tokens are not a type string: "MS.mzXML.gz" comes back whole. */
  lemma ThreeTokensUnchanged()
    ensures GetMSType(GetType(GetType(MsFile, MzXmlFormat), "gz")) == GetType(GetType(MsFile, MzXmlFormat), "gz")
    ensures GetMSFormat(GetType(GetType(MsFile, MzXmlFormat), "gz")) == GetType(GetType(MsFile, MzXmlFormat), "gz")
  {
    var s := GetType(GetType(MsFile, MzXmlFormat), "gz");
    assert s == MsFile + "." + (MzXmlFormat + "." + "gz");
    PiecesAfterDot(MsFile, MzXmlFormat + "." + "gz");
    PiecesAfterDot(MzXmlFormat, "gz");
    PiecesOfDotFree("gz");
    assert Pieces(s) == [MsFile, MzXmlFormat, "gz"];
    assert s[2] == '.';
    assert SplitOnDot(s) == [MsFile, MzXmlFormat, "gz"];
  }
}
