/**
 * The comma-separated tag input both catalog agents accept: split on commas,
 * strip each piece, and join the pieces with single spaces before embedding.
 */
module Tags {
  import opened PyStr

  /** `" ".join([tag.strip() for tag in tags.split(",")])` */
  function NormalizeTags(tags: string): string {
    var parts := Split(tags, ',');
    Join(seq(|parts|, k requires 0 <= k < |parts| => Strip(parts[k])), " ")
  }

  /** Normalised tags contain no comma. */
  lemma NormalizeTagsNoComma(tags: string)
    ensures ',' !in NormalizeTags(tags)
  {
    var parts := Split(tags, ',');
    var pieces := seq(|parts|, k requires 0 <= k < |parts| => Strip(parts[k]));
    forall k | 0 <= k < |pieces| ensures ',' !in pieces[k] {
      if ',' in pieces[k] {
        StripSubset(parts[k], ',');
      }
    }
    JoinAvoids(pieces, " ", ',');
  }

  /** Tags already free of surrounding white space and commas are joined by spaces instead of commas. */
  lemma NormalizeJoinedTags(tags: seq<string>)
    requires |tags| >= 1
    requires forall k :: 0 <= k < |tags| ==> ',' !in tags[k] && Strip(tags[k]) == tags[k]
    ensures NormalizeTags(Join(tags, ",")) == Join(tags, " ")
  {
    SplitJoin(tags, ',');
    var parts := Split(Join(tags, ","), ',');
    assert parts == tags;
    assert seq(|parts|, k requires 0 <= k < |parts| => Strip(parts[k])) == tags;
  }
}
