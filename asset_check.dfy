/**
 * The two checks `handleImageUpload` applies to an incoming file
 * (src/Components/wow.tsx:97-111): the 5 MB size limit and the emoji name
 * derived from the file name.
 */
module AssetCheck {

  /** The upload limit: 5 MB, counted in decimal bytes. */
  const MaxBytes: nat := 5_000_000

  /**
   * The source divides the byte count by 1000 and compares the quotient with
   * 5000 in floating point; on a whole number of bytes that is the integer
   * comparison with MaxBytes.
   */
  function TooLarge(size: nat): (r: bool)
    ensures r <==> (size as real) / 1000.0 > 5000.0
  {
    size > MaxBytes
  }

  /**
   * JavaScript's `s.split(sep)` for a one-character separator: the pieces
   * between separators, in order, always one more piece than separators
   * (so "" gives [""] and "a." gives ["a", ""]).
   */
  function Split(s: string, sep: char): (pieces: seq<string>)
    ensures |pieces| >= 1
    decreases |s|
  {
    if |s| == 0 then [""]
    else
      var rest := Split(s[1..], sep);
      if s[0] == sep then [""] + rest
      else [[s[0]] + rest[0]] + rest[1..]
  }

  /** `pieces.join(sep)`: the inverse of Split. */
  function Join(pieces: seq<string>, sep: char): string
    requires |pieces| >= 1
    decreases |pieces|
  {
    if |pieces| == 1 then pieces[0]
    else pieces[0] + [sep] + Join(pieces[1..], sep)
  }

  /** No piece that Split returns contains the separator. */
  lemma {:induction false} SplitPiecesAvoidSeparator(s: string, sep: char)
    ensures forall i :: 0 <= i < |Split(s, sep)| ==> sep !in Split(s, sep)[i]
    decreases |s|
  {
    if |s| > 0 {
      SplitPiecesAvoidSeparator(s[1..], sep);
    }
  }

  /** Joining the pieces back with the separator gives the original string. */
  lemma {:induction false} JoinSplit(s: string, sep: char)
    ensures Join(Split(s, sep), sep) == s
    decreases |s|
  {
    if |s| > 0 {
      var rest := Split(s[1..], sep);
      JoinSplit(s[1..], sep);
      if s[0] != sep && |rest| > 1 {
        assert rest == [rest[0]] + rest[1..];
      }
    }
  }

  /**
   * Conversely, splitting a join of separator-free pieces gives the pieces
   * back, so Split is the only function with the two properties above.
   */
  lemma {:induction false} SplitJoin(pieces: seq<string>, sep: char)
    requires |pieces| >= 1
    requires forall i :: 0 <= i < |pieces| ==> sep !in pieces[i]
    ensures Split(Join(pieces, sep), sep) == pieces
    decreases |pieces|, |pieces[0]|
  {
    if |pieces[0]| > 0 {
      var c := pieces[0][0];
      var shorter := [pieces[0][1..]] + pieces[1..];
      var s := Join(pieces, sep);
      assert c != sep;
      assert s == [c] + Join(shorter, sep) by {
        JoinFirst(pieces, sep);
        JoinFirst(shorter, sep);
      }
      SplitJoin(shorter, sep);
      assert s[0] == c && s[1..] == Join(shorter, sep);
      assert [c] + pieces[0][1..] == pieces[0];
      assert pieces == [pieces[0]] + pieces[1..];
    } else if |pieces| > 1 {
      var s := Join(pieces, sep);
      SplitJoin(pieces[1..], sep);
      assert s == [sep] + Join(pieces[1..], sep);
      assert s[0] == sep && s[1..] == Join(pieces[1..], sep);
      assert pieces == [""] + pieces[1..];
    }
  }

  /** The joined string starts with the first piece and goes on with the rest. */
  lemma JoinFirst(pieces: seq<string>, sep: char)
    requires |pieces| >= 1
    ensures Join(pieces, sep) == pieces[0] + Join([""] + pieces[1..], sep)
  {
  }

  /**
   * `s.split(sep)[0]` is the longest prefix of s without the separator: it
   * ends at the first separator, or at the end of s when there is none.
   */
  lemma {:induction false} FirstPieceIsPrefix(s: string, sep: char)
    ensures |Split(s, sep)[0]| <= |s|
    ensures Split(s, sep)[0] == s[..|Split(s, sep)[0]|]
    ensures sep !in Split(s, sep)[0]
    ensures |Split(s, sep)[0]| == |s| || s[|Split(s, sep)[0]|] == sep
    decreases |s|
  {
    if |s| > 0 && s[0] != sep {
      FirstPieceIsPrefix(s[1..], sep);
    }
  }

  /**
   * The emoji name proposed for an accepted file: "wow-" followed by the file
   * name up to its first '.', so "cat.jpg" gives "wow-cat" and "a.b.png"
   * gives "wow-a".
   */
  function EmojiNameFor(fileName: string): (name: string)
    ensures 4 <= |name| <= |fileName| + 4 && name[..4] == "wow-"
    ensures name[4..] == fileName[..|name| - 4]
    ensures '.' !in name[4..]
    ensures |name| - 4 == |fileName| || fileName[|name| - 4] == '.'
  {
    FirstPieceIsPrefix(fileName, '.');
    "wow-" + Split(fileName, '.')[0]
  }

  /** Worked example: "cat.jpg" is offered as "wow-cat". */
  lemma EmojiNameOfCatJpg()
    ensures EmojiNameFor("cat.jpg") == "wow-cat"
  {
    assert Join(["cat", "jpg"], '.') == "cat" + ['.'] + Join(["jpg"], '.');
    SplitJoin(["cat", "jpg"], '.');
  }

  /** Worked example: only the text before the FIRST '.' is kept. */
  lemma EmojiNameOfABPng()
    ensures EmojiNameFor("a.b.png") == "wow-a"
  {
    assert Join(["b", "png"], '.') == "b" + ['.'] + Join(["png"], '.');
    assert Join(["a", "b", "png"], '.') == "a" + ['.'] + Join(["b", "png"], '.');
    SplitJoin(["a", "b", "png"], '.');
  }
}
