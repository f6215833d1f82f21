/**
 * The state machine of the local test server: which challenge it is
 * serving (`uvresp_index`), how many tiles or images it has replaced
 * (`dresp_num`) and which image its payload endpoint hands out next
 * (`next_image`).  The canned reply texts are named, not spelled out.
 */
module TestServer {
  import opened Wrappers
  import opened Errors
  import opened PyStr
  import opened Json

  datatype ChallengeType = Dynamic | MultiCaptcha

  /** `challenge_type`: dynamic before the first verify, multicaptcha after it, nothing after the second. */
  function ChallengeTypeOf(uvrespIndex: int): (r: Option<ChallengeType>)
    ensures r == Some(Dynamic) <==> uvrespIndex == -1
    ensures r == Some(MultiCaptcha) <==> uvrespIndex == 0
    ensures r.None? <==> uvrespIndex != -1 && uvrespIndex != 0
  {
    if uvrespIndex == -1 then Some(Dynamic)
    else if uvrespIndex == 0 then Some(MultiCaptcha)
    else None
  }

  /** `_initial_image`: the image a fresh challenge of the type starts with. */
  function InitialImage(challengeType: Option<ChallengeType>): (r: Option<string>)
    ensures r.None? <==> challengeType.None?
  {
    match challengeType
    case None => None
    case Some(Dynamic) => Some("dynamic")
    case Some(MultiCaptcha) => Some("multi1")
  }

  /** `1 + (n - 1) % 16`: Python's `%` by a positive number agrees with Dafny's. */
  function TileNumber(n: int): (k: int)
    ensures 1 <= k <= 16 && (k - n) % 16 == 0
  {
    1 + (n - 1) % 16
  }

  /** The first sixteen replacements are tiles 1 to 16, and the names repeat every sixteen. */
  lemma TileNumberCycle(n: int)
    ensures 1 <= n <= 16 ==> TileNumber(n) == n
    ensures TileNumber(n + 16) == TileNumber(n)
  {
    assert (n + 16 - 1) % 16 == (n - 1) % 16 by {
      assert n + 16 - 1 == (n - 1) + 1 * 16;
    }
  }

  /** The name of the image that replacement number `n` of a challenge of type `t` serves. */
  function ReplacementName(t: ChallengeType, n: int): (r: string)
    ensures t == Dynamic ==> exists k :: 1 <= k <= 16 && r == "tile" + IntToDecimal(k)
    ensures t == MultiCaptcha ==> r == "multi" + IntToDecimal(n + 1)
  {
    match t
    case Dynamic => "tile" + IntToDecimal(TileNumber(n))
    case MultiCaptcha => "multi" + IntToDecimal(n + 1)
  }

  /** `os.path.join("images", "jpeg", f"{name}.jpg")`. */
  function PayloadFile(name: string): string {
    "images/jpeg/" + name + ".jpg"
  }

  /** The server's replies: the initial `rresp`, entry `index` of the `uvresp` list, or a filled `dresp` template. */
  datatype Reply = InitialRresp | Uvresp(index: nat) | Dresp(token: string, id: string, p: string)

  /** The number of canned `uvresp` replies. */
  const UvrespCount := 2

  class State {
    var uvrespIndex: int
    var drespNum: int
    var nextImage: Option<string>

    constructor()
      ensures uvrespIndex == -1 && drespNum == 0 && nextImage == None
    {
      uvrespIndex := -1;
      drespNum := 0;
      nextImage := None;
    }

    function ChallengeType(): Option<ChallengeType>
      reads this
    {
      ChallengeTypeOf(uvrespIndex)
    }

    /** `reset`. */
    method Reset()
      modifies this
      ensures uvrespIndex == -1 && drespNum == 0 && nextImage == None
    {
      uvrespIndex := -1;
      drespNum := 0;
      nextImage := None;
    }

    /** `reload`: a new session on a dynamic challenge whose first payload is its image. */
    method Reload() returns (reply: Reply)
      modifies this
      ensures uvrespIndex == -1 && drespNum == 0 && nextImage == Some("dynamic")
      ensures ChallengeType() == Some(Dynamic)
      ensures reply == InitialRresp
    {
      Reset();
      nextImage := InitialImage(ChallengeType());
      reply := InitialRresp;
    }

    /**
     * `replaceimage`: counts the replacement first, then names the next
     * image after it; with no challenge type it raises after counting.
     */
    method ReplaceImage() returns (r: Result<Reply, Error>)
      modifies this
      ensures uvrespIndex == old(uvrespIndex) && drespNum == old(drespNum) + 1
      ensures ChallengeType().None? ==> r == Failure(InvalidChallengeType) && nextImage == old(nextImage)
      ensures ChallengeType().Some? ==>
        nextImage == Some(ReplacementName(ChallengeType().value, drespNum))
        && r == Success(Dresp("dresp-token-" + IntToDecimal(drespNum), nextImage.value, "dresp-p-" + IntToDecimal(drespNum)))
    {
      drespNum := drespNum + 1;
      match ChallengeType()
      case None =>
        r := Failure(InvalidChallengeType);
      case Some(t) =>
        nextImage := Some(ReplacementName(t, drespNum));
        r := Success(Dresp("dresp-token-" + IntToDecimal(drespNum), nextImage.value, "dresp-p-" + IntToDecimal(drespNum)));
    }

    /** `payload_path`: hands out the pending image once. */
    method PayloadPath() returns (path: Option<string>)
      modifies this
      ensures nextImage == None
      ensures uvrespIndex == old(uvrespIndex) && drespNum == old(drespNum)
      ensures old(nextImage).None? ==> path.None?
      ensures old(nextImage).Some? ==> path == Some(PayloadFile(old(nextImage).value))
    {
      match nextImage
      case None =>
        path := None;
      case Some(name) =>
        path := Some(PayloadFile(name));
        nextImage := None;
    }

    /**
     * `userverify`: moves to the next challenge and its first image, then
     * picks the `uvresp` reply; past the last one the lookup raises
     * `IndexError` with the new state already in place.
     */
    method UserVerify() returns (r: Result<Reply, Error>)
      modifies this
      ensures uvrespIndex == old(uvrespIndex) + 1 && drespNum == 0
      ensures nextImage == InitialImage(ChallengeType())
      ensures PyIndex(uvrespIndex, UvrespCount).None? ==> r == Failure(ShapeError)
      ensures PyIndex(uvrespIndex, UvrespCount).Some? ==> r == Success(Uvresp(PyIndex(uvrespIndex, UvrespCount).value))
    {
      uvrespIndex := uvrespIndex + 1;
      drespNum := 0;
      nextImage := InitialImage(ChallengeType());
      match PyIndex(uvrespIndex, UvrespCount)
      case None =>
        r := Failure(ShapeError);
      case Some(i) =>
        r := Success(Uvresp(i));
    }
  }

  lemma SessionNames()
    ensures PayloadFile("dynamic") == "images/jpeg/dynamic.jpg"
    ensures PayloadFile("multi1") == "images/jpeg/multi1.jpg"
    ensures ReplacementName(Dynamic, 1) == "tile1" && PayloadFile("tile1") == "images/jpeg/tile1.jpg"
    ensures ReplacementName(MultiCaptcha, 1) == "multi2"
  {
    assert TileNumber(1) == 1;
    assert IntToDecimal(1) == "1" && IntToDecimal(2) == "2";
  }

  /**
   * One session as the client walks it: the dynamic image is served once,
   * a tile replacement serves `tile1`, the first verify moves to a
   * multicaptcha served as `multi1` whose next image is `multi2`, the second
   * verify ends the challenges, the third finds no reply, and a replacement
   * after the last challenge is refused.
   */
  method Session() returns (first: Option<string>, again: Option<string>, tile: Option<string>,
                            multi: Option<string>, next: Result<Reply, Error>, last: Option<string>,
                            extra: Result<Reply, Error>, refused: Result<Reply, Error>)
    ensures first == Some("images/jpeg/dynamic.jpg") && again == None
    ensures tile == Some("images/jpeg/tile1.jpg")
    ensures multi == Some("images/jpeg/multi1.jpg")
    ensures next.Success? && next.value.Dresp? && next.value.id == "multi2"
    ensures last == None && extra == Failure(ShapeError) && refused == Failure(InvalidChallengeType)
  {
    SessionNames();
    var server := new State();
    var reply := server.Reload();
    first := server.PayloadPath();
    again := server.PayloadPath();
    var dresp := server.ReplaceImage();
    tile := server.PayloadPath();
    var uvresp := server.UserVerify();
    multi := server.PayloadPath();
    next := server.ReplaceImage();
    uvresp := server.UserVerify();
    last := server.PayloadPath();
    extra := server.UserVerify();
    refused := server.ReplaceImage();
  }
}
