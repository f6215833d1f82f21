/**
 * The exceptions the protocol client raises, as one error datatype.  The
 * typed errors of librecaptcha/errors.py carry the challenge type; Python's
 * built-in IndexError, TypeError and KeyError raised by positional decoding
 * are collapsed into ShapeError.
 */
module Errors {
  import opened Json

  datatype UrlProblem = NoHostname | NoScheme | InvalidScheme(scheme: string) | InvalidPort

  datatype Error =
    | SiteUrlParseError(problem: UrlProblem)   // librecaptcha SiteUrlParseError
    | UrlValueError(problem: UrlProblem)       // ValueError of the older module
    | ChallengeBlockedError(blockedType: string)
    | UnknownChallengeError(challengeType: Json)
    | LegacyBlocked                            // RuntimeError of the older module for "default"
    | UnsupportedChallenge(legacyType: Json) // RuntimeError of the older module
    | StateError                               // a solver's call-order RuntimeError
    | ShapeError                               // IndexError / TypeError / KeyError
    | DecodeError                              // load_rc_json could not decode
    | MetaNotFound                             // get_meta's RuntimeError
    | NoFirstToken                             // anchor page without a token
    | NeitherTokenNorRresp                     // verify reply without either
    | NegativeVarint                           // varint_encode's ValueError
    | TransportError                           // no reply from the server
    | ImageError                               // reply content is not an image
    | ZeroDivision                             // a grid dimension of zero
    | NoTiles                                  // max() over an empty grid
    | UnboundToken                             // solve_all never assigned uv_token
    | InputExhausted                           // interactive input ran out
    | InvalidChallengeType                     // the test server's RuntimeError
}
