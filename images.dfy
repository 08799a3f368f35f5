/** Which bitmap the inbox handler loads, decided from the decoded sentiment. */
module Images {
  import opened CStrings

  /** The three image resources the app bundles. */
  datatype Resource = Frown | Smiley | Neutral

  /** The if/else-if chain on `strcmp` results. `strcmp` is non-zero exactly when the
      strings differ, so the first test holds for every sentiment except "sad", which then
      fails the "happy" test and gets the smiley; the last branch is dead. */
  function ChooseImage(sentiment: CString): (r: Resource)
    ensures r == (if sentiment == "sad" then Smiley else Frown)
    ensures r != Neutral
  {
    if StrCmp(sentiment, "sad") != 0 then Frown
    else if StrCmp(sentiment, "happy") != 0 then Smiley
    else Neutral
  }
}
