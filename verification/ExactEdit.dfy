/** Exact-string replacement: counting and replacing non-overlapping occurrences from the left. */
module ExactEdit {
  import opened Wrappers

  /** The first place `old_` occurs in `s`. */
  function Index(s: string, old_: string): (r: Option<nat>)
    ensures r.Some? ==> r.value + |old_| <= |s| && s[r.value..r.value + |old_|] == old_
    ensures r.None? ==> !(old_ <= s)
    decreases |s|
  {
    if old_ <= s then Some(0)
    else if s == "" then None
    else
      match Index(s[1..], old_)
      case None => None
      case Some(i) =>
        assert s[1..][i..i + |old_|] == s[i + 1..i + 1 + |old_|];
        Some(i + 1)
  }

  function Count(s: string, old_: string): nat
    requires old_ != ""
    decreases |s|
  {
    match Index(s, old_)
    case None => 0
    case Some(i) => 1 + Count(s[i + |old_|..], old_)
  }

  function ReplaceAll(s: string, old_: string, new_: string): string
    requires old_ != ""
    decreases |s|
  {
    match Index(s, old_)
    case None => s
    case Some(i) => s[..i] + new_ + ReplaceAll(s[i + |old_|..], old_, new_)
  }

  function ReplaceFirst(s: string, old_: string, new_: string): string {
    match Index(s, old_)
    case None => s
    case Some(i) => s[..i] + new_ + s[i + |old_|..]
  }

  datatype EditRequest = EditRequest(name: string, old_: string, new_: string, replaceAll: bool)

  datatype EditStatus =
    | Changed | Unchanged | EmptyOldString | NoMatch | AmbiguousMatch
    | UnsafePath | NotFound | IsDirectory | MissingReadToken | StaleReadToken | MutationRejected

  datatype ExactResult = ExactResult(status: EditStatus, content: string, replacements: nat) {
    predicate Ok() {
      status == Changed || status == Unchanged
    }
  }

  /** One edit of a content by the exact strategy. */
  function ApplyExactEdit(content: string, r: EditRequest): (result: ExactResult)
    ensures !result.Ok() ==> result.content == content
    ensures result.status == Unchanged ==> result.content == content
  {
    if r.old_ == "" then ExactResult(EmptyOldString, content, 0)
    else
      var count := Count(content, r.old_);
      if count == 0 then ExactResult(NoMatch, content, 0)
      else if count > 1 && !r.replaceAll then ExactResult(AmbiguousMatch, content, count)
      else
        var updated := if r.replaceAll then ReplaceAll(content, r.old_, r.new_)
                       else ReplaceFirst(content, r.old_, r.new_);
        ExactResult(if updated == content then Unchanged else Changed, updated, count)
  }

  // ----- What an edit means -----

  /** The pieces of `s` between the occurrences of `old_`. */
  function Pieces(s: string, old_: string): (r: seq<string>)
    requires old_ != ""
    ensures r != []
    decreases |s|
  {
    match Index(s, old_)
    case None => [s]
    case Some(i) => [s[..i]] + Pieces(s[i + |old_|..], old_)
  }

  function JoinWith(pieces: seq<string>, separator: string): string
    requires pieces != []
  {
    if |pieces| == 1 then pieces[0] else pieces[0] + separator + JoinWith(pieces[1..], separator)
  }

  lemma {:induction false} JoinCons(piece: string, pieces: seq<string>, separator: string)
    requires pieces != []
    ensures JoinWith([piece] + pieces, separator) == piece + separator + JoinWith(pieces, separator)
  {
    assert ([piece] + pieces)[1..] == pieces;
  }

  /** Replacing all occurrences is joining the same pieces with the new string instead of the old one. */
  lemma {:induction false} ReplaceIsRejoin(s: string, old_: string, new_: string)
    requires old_ != ""
    ensures JoinWith(Pieces(s, old_), old_) == s
    ensures JoinWith(Pieces(s, old_), new_) == ReplaceAll(s, old_, new_)
    ensures |Pieces(s, old_)| == Count(s, old_) + 1
    decreases |s|
  {
    match Index(s, old_)
    case None =>
      assert [s][0] == s;
    case Some(i) =>
      hide JoinWith;
      var rest := s[i + |old_|..];
      ReplaceIsRejoin(rest, old_, new_);
      JoinCons(s[..i], Pieces(rest, old_), old_);
      JoinCons(s[..i], Pieces(rest, old_), new_);
      assert s[..i] + old_ + rest == s;
  }

  /**
   * An accepted edit found its old string, exactly once unless it replaces all, and its result is the same
   * pieces joined by the new string; a refused edit leaves the content alone.
   */
  lemma {:induction false} ExactEditMeaning(content: string, r: EditRequest)
    ensures
      var result := ApplyExactEdit(content, r);
      if r.old_ == "" then result.status == EmptyOldString
      else
        var pieces := Pieces(content, r.old_);
        && JoinWith(pieces, r.old_) == content
        && (result.status == NoMatch <==> |pieces| == 1)
        && (result.status == AmbiguousMatch <==> |pieces| > 2 && !r.replaceAll)
        && (result.Ok() ==> result.content == JoinWith(pieces, r.new_) && result.replacements == |pieces| - 1)
        && (!result.Ok() ==> result.content == content)
  {
    if r.old_ != "" {
      ReplaceIsRejoin(content, r.old_, r.new_);
      if Count(content, r.old_) == 1 {
        var i := Index(content, r.old_).value;
        ReplaceIsRejoin(content[i + |r.old_|..], r.old_, r.new_);
      }
    }
  }
}
