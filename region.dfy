/** Region parsing of an identity pool id (`Token.getRegionFromIdentityPoolId`). */
module PoolRegion {

  /** The region part of a pool id of the form `<region>:<uuid>`: everything before the first ':'. */
  function RegionOf(identityPoolId: string): (region: string)
    ensures region <= identityPoolId
    ensures ':' !in region
    ensures region == identityPoolId || identityPoolId[|region|] == ':'
  {
    if identityPoolId == [] || identityPoolId[0] == ':' then []
    else [identityPoolId[0]] + RegionOf(identityPoolId[1..])
  }

  /** JavaScript's `s.split(sep)` for a one-character separator: the pieces between the separators, never an empty list. */
  function Split(s: string, sep: char): (pieces: seq<string>)
    ensures |pieces| >= 1
    ensures forall i :: 0 <= i < |pieces| ==> sep !in pieces[i]
  {
    if s == [] then [[]]
    else if s[0] == sep then [[]] + Split(s[1..], sep)
    else
      var rest := Split(s[1..], sep);
      [[s[0]] + rest[0]] + rest[1..]
  }

  /** Joins pieces with the separator between them: the inverse of Split. */
  function Join(pieces: seq<string>, sep: char): string {
    if pieces == [] then []
    else if |pieces| == 1 then pieces[0]
    else pieces[0] + [sep] + Join(pieces[1..], sep)
  }

  /** Split loses nothing: joining its pieces with the separator gives back the input. */
  lemma {:induction false} JoinSplit(s: string, sep: char)
    ensures Join(Split(s, sep), sep) == s
  {
    if s != [] {
      JoinSplit(s[1..], sep);
      var rest := Split(s[1..], sep);
      if s[0] == sep {
        assert Split(s, sep) == [[]] + rest;
        assert Join(Split(s, sep), sep) == [sep] + Join(rest, sep);
      } else if |rest| == 1 {
        assert Split(s, sep) == [[s[0]] + rest[0]];
      } else {
        assert Join(rest, sep) == rest[0] + [sep] + Join(rest[1..], sep);
        assert Split(s, sep) == [[s[0]] + rest[0]] + rest[1..];
        assert Join(Split(s, sep), sep) == [s[0]] + rest[0] + [sep] + Join(rest[1..], sep);
      }
    }
  }

  /** The three properties in RegionOf's contract determine the region uniquely. */
  lemma RegionUnique(identityPoolId: string, region: string)
    requires region <= identityPoolId
    requires ':' !in region
    requires region == identityPoolId || identityPoolId[|region|] == ':'
    ensures region == RegionOf(identityPoolId)
  {
  }

  /** RegionOf is the first piece of `split(':')`, which is what the source computes. */
  lemma {:induction false} RegionIsFirstPiece(identityPoolId: string)
    ensures RegionOf(identityPoolId) == Split(identityPoolId, ':')[0]
  {
    if identityPoolId != [] && identityPoolId[0] != ':' {
      RegionIsFirstPiece(identityPoolId[1..]);
    }
  }

  /** An example: pool `us-east-1:abcd-1234` lies in region `us-east-1`. */
  lemma RegionExample()
    ensures RegionOf("us-east-1:abcd-1234") == "us-east-1"
  {
    RegionUnique("us-east-1:abcd-1234", "us-east-1");
  }
}
