/**
 * The value types the solvers hand to their front ends: grid dimensions,
 * challenge goals, image-grid challenges, dynamic tiles and solutions.
 * Images are abstract: a fetched payload, or a crop box inside another image.
 */
module Types {
  import opened Wrappers
  import opened Json
  import opened PyStr

  /** A crop rectangle `(left, top, right, bottom)`. */
  datatype Box = Box(left: int, top: int, right: int, bottom: int)

  /** A decoded image: a payload the server sent, or a crop of another image. */
  datatype Image =
    | Payload(name: string, width: nat, height: nat)
    | Crop(base: Image, box: Box)
  {
    function Width(): int {
      match this
      case Payload(_, w, _) => w
      case Crop(_, b) => b.right - b.left
    }
    function Height(): int {
      match this
      case Payload(_, _, h) => h
      case Crop(_, b) => b.bottom - b.top
    }
  }

  /** `GridDimensions(rows, columns)`; `count` is the number of tiles. */
  datatype GridDimensions = GridDimensions(rows: int, columns: int)
  {
    function Count(): (n: int)
      ensures rows >= 0 && columns >= 0 ==> n >= 0
      ensures n == 0 <==> rows == 0 || columns == 0
    {
      rows * columns
    }
  }

  /** The goal of a challenge: its text, if the search found one, and the meta it came from. */
  datatype ChallengeGoal = ChallengeGoal(raw: Option<string>, meta: Json)
  {
    /** `plain`: the raw text with `<strong>` and `</strong>` removed. */
    function Plain(): (r: Option<string>)
      ensures r.Some? <==> raw.Some?
    {
      match raw
      case None => None
      case Some(s) => Some(Replace(Replace(s, "<strong>", ""), "</strong>", ""))
    }
  }

  /** Removing the tags keeps exactly the text around and between them. */
  lemma PlainStripsTags(prefix: string, bold: string, suffix: string, meta: Json)
    requires '<' !in prefix && '<' !in bold && '<' !in suffix
    ensures ChallengeGoal(Some(prefix + "<strong>" + bold + "</strong>" + suffix), meta).Plain()
         == Some(prefix + bold + suffix)
  {
    OpenTagRemoved(prefix, bold, suffix);
    CloseTagRemoved(prefix, bold, suffix);
  }

  lemma OpenTagRemoved(prefix: string, bold: string, suffix: string)
    requires '<' !in prefix && '<' !in bold && '<' !in suffix
    ensures Replace(prefix + "<strong>" + bold + "</strong>" + suffix, "<strong>", "")
         == prefix + bold + "</strong>" + suffix
  {
    var open, close := "<strong>", "</strong>";
    var rest := bold + close + suffix;
    CloseTagSurvives(suffix);
    assert bold + close + suffix == bold + (close + suffix);
    ReplaceSkip(bold, close + suffix, open, []);
    RemoveOnce(prefix, rest, open);
    Regroup(prefix, open, bold, close, suffix);
  }

  lemma Regroup(a: string, b: string, c: string, d: string, e: string)
    ensures a + b + c + d + e == a + b + (c + d + e)
    ensures a + (c + d + e) == a + c + d + e
  {
  }

  /** "</strong>" is not an occurrence of "<strong>". */
  lemma CloseTagSurvives(suffix: string)
    requires '<' !in suffix
    ensures Replace("</strong>" + suffix, "<strong>", "") == "</strong>" + suffix
  {
    var open, close := "<strong>", "</strong>";
    var tail := close + suffix;
    assert tail[..|open|] != open by {
      assert tail[1] == '/' && open[1] == 's';
    }
    assert tail[1..] == close[1..] + suffix;
    assert '<' !in close[1..];
    ReplaceFree(close[1..] + suffix, open, "");
    assert tail == [tail[0]] + tail[1..];
  }

  lemma CloseTagRemoved(prefix: string, bold: string, suffix: string)
    requires '<' !in prefix && '<' !in bold && '<' !in suffix
    ensures Replace(prefix + bold + "</strong>" + suffix, "</strong>", "") == prefix + bold + suffix
  {
    var close := "</strong>";
    assert '<' !in prefix + bold;
    ReplaceFree(suffix, close, []);
    RemoveOnce(prefix + bold, suffix, close);
  }

  /** An image-grid challenge: what to select, the image, and its grid. */
  datatype ImageGridChallenge = ImageGridChallenge(goal: ChallengeGoal, image: Image, dimensions: GridDimensions)

  /** What `select_tile` returns: the replacement image and how long to wait before showing it. */
  datatype DynamicTile = DynamicTile(image: Image, delay: real)

  /**
   * `Solution.response`: the selected tile ids of a dynamic challenge, or
   * the sorted selection groups of a multicaptcha.
   */
  datatype Solution =
    | DynamicSolution(ids: seq<int>)
    | MultiSolution(groups: seq<seq<int>>)
}
