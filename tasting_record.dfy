/**
 * The tasting-record form (src/screens/TastingRecord/index_old.tsx): photos,
 * an overall score, the flavour wheel, six professional scores, free-text
 * notes and flavour tags, edited field by field and turned into a
 * `TastingRecord` on save.
 *
 * Each handler's effect on its field is a function on values; the form is a
 * class whose methods replace one field by that function and leave the rest.
 */
module TastingForm {
  import opened Types
  import opened Seqs

  // ---------------------------------------------------------------------------
  // Flavour wheel
  // ---------------------------------------------------------------------------

  /** `keyof FlavorWheelData`. */
  datatype FlavorKey = Floral | Fruity | Sweet | Nutty | Chocolate | Spicy | Acidic | Bitter

  /** `flavorWheel[key]`. */
  function WheelValue(wheel: FlavorWheelData, key: FlavorKey): int {
    match key
    case Floral => wheel.floral
    case Fruity => wheel.fruity
    case Sweet => wheel.sweet
    case Nutty => wheel.nutty
    case Chocolate => wheel.chocolate
    case Spicy => wheel.spicy
    case Acidic => wheel.acidic
    case Bitter => wheel.bitter
  }

  /** `{ ...wheel, [key]: value }`: the named field set, every other field kept. */
  function WithWheelValue(wheel: FlavorWheelData, key: FlavorKey, value: int): (r: FlavorWheelData)
    ensures WheelValue(r, key) == value
    ensures forall other :: other != key ==> WheelValue(r, other) == WheelValue(wheel, other)
  {
    match key
    case Floral => wheel.(floral := value)
    case Fruity => wheel.(fruity := value)
    case Sweet => wheel.(sweet := value)
    case Nutty => wheel.(nutty := value)
    case Chocolate => wheel.(chocolate := value)
    case Spicy => wheel.(spicy := value)
    case Acidic => wheel.(acidic := value)
    case Bitter => wheel.(bitter := value)
  }

  const EmptyWheel: FlavorWheelData := FlavorWheelData(0, 0, 0, 0, 0, 0, 0, 0)

  /** The six professional aspects, each rated with stars. */
  const ScoreAspects: seq<string> := ["aroma", "wetAroma", "acidity", "sweetness", "body", "aftertaste"]

  const InitialScores: map<string, int> :=
    map["aroma" := 0, "wetAroma" := 0, "acidity" := 0, "sweetness" := 0, "body" := 0, "aftertaste" := 0]

  const InitialTags: seq<string> := ["花香", "柑橘", "明亮"]

  // ---------------------------------------------------------------------------
  // Tags
  // ---------------------------------------------------------------------------

  predicate NoDuplicates(s: seq<string>) {
    forall i, j :: 0 <= i < j < |s| ==> s[i] != s[j]
  }

  /** The prompt callback of `handleAddTag`: append a non-empty text not yet present. */
  function AddedTag(tags: seq<string>, text: string): (r: seq<string>)
    ensures |tags| <= |r| <= |tags| + 1 && r[..|tags|] == tags
    ensures text != "" ==> text in r
    ensures forall t :: t in r ==> t in tags || t == text
  {
    if text != "" && text !in tags then tags + [text] else tags
  }

  function IsNot(tag: string): string -> bool {
    t => t != tag
  }

  /** `handleRemoveTag`: every occurrence of the tag filtered out. */
  function RemovedTag(tags: seq<string>, tag: string): (r: seq<string>)
    ensures tag !in r && |r| <= |tags|
    ensures forall t :: t in r ==> t in tags
  {
    Filter(tags, IsNot(tag))
  }

  lemma InitialTagsDistinct()
    ensures NoDuplicates(InitialTags)
  {
  }

  /** Adding a tag appends it exactly when it is new and non-empty, keeps the list free
      of duplicates, and adding it a second time changes nothing. */
  lemma AddTagEffect(tags: seq<string>, text: string)
    requires NoDuplicates(tags)
    ensures var r := AddedTag(tags, text);
            NoDuplicates(r) &&
            (text != "" && text !in tags ==> r == tags + [text]) &&
            (text == "" || text in tags ==> r == tags) &&
            AddedTag(r, text) == r
  {
  }

  /** Removing a tag drops every occurrence of it and keeps the other tags, in order. */
  lemma RemoveTagEffect(tags: seq<string>, tag: string, other: string)
    ensures tag !in RemovedTag(tags, tag)
    ensures other != tag ==> (other in RemovedTag(tags, tag) <==> other in tags)
    ensures IsSubsequence(RemovedTag(tags, tag), tags)
  {
    FilterMembership(tags, IsNot(tag), tag);
    FilterMembership(tags, IsNot(tag), other);
    FilterIsSubsequence(tags, IsNot(tag));
  }

  /** Filtering a duplicate-free list leaves it duplicate-free. */
  lemma {:induction false} RemoveTagKeepsDistinct(tags: seq<string>, tag: string)
    requires NoDuplicates(tags)
    ensures NoDuplicates(RemovedTag(tags, tag))
  {
    if tags != [] {
      var rest := tags[1..];
      assert NoDuplicates(rest) by {
        forall i, j | 0 <= i < j < |rest| ensures rest[i] != rest[j] {
          assert rest[i] == tags[i + 1] && rest[j] == tags[j + 1];
        }
      }
      RemoveTagKeepsDistinct(rest, tag);
      if tags[0] != tag {
        assert tags[0] !in rest by {
          forall k | 0 <= k < |rest| ensures rest[k] != tags[0] {
            assert rest[k] == tags[k + 1];
          }
        }
        FilterMembership(rest, IsNot(tag), tags[0]);
        var r := RemovedTag(tags, tag);
        assert r == [tags[0]] + RemovedTag(rest, tag);
        forall i, j | 0 <= i < j < |r| ensures r[i] != r[j] {
          if i == 0 {
            assert r[j] in RemovedTag(rest, tag);
          } else {
            assert r[i] == RemovedTag(rest, tag)[i - 1] && r[j] == RemovedTag(rest, tag)[j - 1];
          }
        }
      }
    }
  }

  // ---------------------------------------------------------------------------
  // Photos and notes
  // ---------------------------------------------------------------------------

  datatype PickerAsset = PickerAsset(uri: Option<string>)

  /** What the image library hands to the callback. */
  datatype PickerResponse = PickerResponse(
    didCancel: bool,
    errorMessage: Option<string>,
    assets: Option<seq<PickerAsset>>)

  /** The URI the callback appends, if any: not cancelled, no (non-empty) error message,
      a first asset, and a non-empty URI on it. */
  function PickedUri(response: PickerResponse): Option<string> {
    if response.didCancel || (response.errorMessage.Some? && response.errorMessage.value != "") then None
    else if response.assets.None? || response.assets.value == [] then None
    else
      var uri := response.assets.value[0].uri;
      if uri.Some? && uri.value != "" then uri else None
  }

  /** The photo list after the callback: the old list, with at most one URI after it. */
  function WithPhoto(photos: seq<string>, response: PickerResponse): (r: seq<string>)
    ensures |photos| <= |r| <= |photos| + 1 && r[..|photos|] == photos
    ensures response.didCancel ==> r == photos
  {
    match PickedUri(response)
    case None => photos
    case Some(uri) => photos + [uri]
  }

  /** A photo is added, at the end, exactly when the picker returned a usable URI; a
      cancelled or failed pick changes nothing. */
  lemma AddPhotoEffect(photos: seq<string>, response: PickerResponse)
    ensures response.didCancel ==> WithPhoto(photos, response) == photos
    ensures response.errorMessage.Some? && response.errorMessage.value != "" ==>
              WithPhoto(photos, response) == photos
    ensures var r := WithPhoto(photos, response);
            |r| == |photos| + 1 <==>
              !response.didCancel &&
              !(response.errorMessage.Some? && response.errorMessage.value != "") &&
              response.assets.Some? && |response.assets.value| > 0 &&
              response.assets.value[0].uri.Some? && response.assets.value[0].uri.value != ""
    ensures var r := WithPhoto(photos, response);
            |r| == |photos| + 1 ==> r[..|photos|] == photos && r[|photos|] == response.assets.value[0].uri.value
  {
    var r := WithPhoto(photos, response);
    if |r| == |photos| + 1 {
      assert r == photos + [response.assets.value[0].uri.value];
    }
  }

  /** The notes after AI assistance: the suggestion alone on empty notes, otherwise on a
      new line after them. */
  function AssistedNotes(notes: string, suggestion: string): (r: string)
    ensures |r| >= |suggestion| && r[|r| - |suggestion|..] == suggestion
    ensures |r| >= |notes| && r[..|notes|] == notes
    ensures notes != "" ==> |r| == |notes| + 1 + |suggestion| && r[|notes|] == '\n'
  {
    if notes != "" then notes + "\n" + suggestion else suggestion
  }

  lemma AssistedNotesEffect(notes: string, suggestion: string)
    ensures notes == "" ==> AssistedNotes(notes, suggestion) == suggestion
    ensures notes != "" ==> |AssistedNotes(notes, suggestion)| == |notes| + 1 + |suggestion|
    ensures notes != "" ==> var r := AssistedNotes(notes, suggestion);
                            r[..|notes|] == notes && r[|notes|] == '\n' && r[|notes| + 1..] == suggestion
  {
  }

  // ---------------------------------------------------------------------------
  // The saved record
  // ---------------------------------------------------------------------------

  /** The record `handleSave` builds; `id` stands for the time-based id. */
  function BuildRecord(id: string, brewingRecordId: string, overallScore: int,
                       scores: map<string, int>, wheel: FlavorWheelData, notes: string,
                       photos: seq<string>): (record: TastingRecord)
    requires "aroma" in scores && "body" in scores && "aftertaste" in scores
    ensures record.userId == "user1" && record.brewingRecordId == brewingRecordId
    ensures record.overallScore == overallScore
    ensures record.flavorWheel == wheel && record.notes == notes && record.photos == Some(photos)
    ensures record.aromaScore == scores["aroma"] && record.bodyScore == scores["body"]
    ensures record.aftertasteScore == scores["aftertaste"]
    ensures record.acidityScore == WheelValue(wheel, Acidic)
    ensures 3.0 * record.flavorScore ==
            (WheelValue(wheel, Floral) + WheelValue(wheel, Fruity) + WheelValue(wheel, Sweet)) as real
  {
    TastingRecord(
      id, "user1", brewingRecordId, overallScore,
      scores["aroma"],
      (wheel.floral + wheel.fruity + wheel.sweet) as real / 3.0,
      wheel.acidic,
      scores["body"],
      scores["aftertaste"],
      wheel, notes, Some(photos))
  }

  /** Every value the form's controls can have set: wheel values 0..3 and star scores
      0..5. */
  predicate InRange(overallScore: int, scores: map<string, int>, wheel: FlavorWheelData) {
    0 <= overallScore <= 5 &&
    (forall a :: a in scores ==> 0 <= scores[a] <= 5) &&
    (forall k :: 0 <= WheelValue(wheel, k) <= 3)
  }

  /** A record saved from a form in range has its scores in range too. */
  lemma RecordScoresInRange(id: string, brewingRecordId: string, overallScore: int,
                            scores: map<string, int>, wheel: FlavorWheelData, notes: string,
                            photos: seq<string>)
    requires "aroma" in scores && "body" in scores && "aftertaste" in scores
    requires InRange(overallScore, scores, wheel)
    ensures var r := BuildRecord(id, brewingRecordId, overallScore, scores, wheel, notes, photos);
            0 <= r.overallScore <= 5 && 0 <= r.aromaScore <= 5 && 0 <= r.bodyScore <= 5 &&
            0 <= r.aftertasteScore <= 5 && 0 <= r.acidityScore <= 3 &&
            0.0 <= r.flavorScore <= 3.0
  {
    assert 0 <= WheelValue(wheel, Floral) <= 3;
    assert 0 <= WheelValue(wheel, Fruity) <= 3;
    assert 0 <= WheelValue(wheel, Sweet) <= 3;
    assert 0 <= WheelValue(wheel, Acidic) <= 3;
  }

  // ---------------------------------------------------------------------------
  // The form
  // ---------------------------------------------------------------------------

  /** The form's fields as a value. */
  datatype Form = Form(
    photos: seq<string>,
    overallScore: int,
    flavorWheel: FlavorWheelData,
    professionalScores: map<string, int>,
    notes: string,
    tags: seq<string>)

  class TastingRecordForm {
    const brewingRecordId: string
    var photos: seq<string>
    var overallScore: int
    var flavorWheel: FlavorWheelData
    var professionalScores: map<string, int>
    var notes: string
    var tags: seq<string>

    function State(): Form
      reads this
    {
      Form(photos, overallScore, flavorWheel, professionalScores, notes, tags)
    }

    /** Tags stay distinct and the six aspects are always present. */
    ghost predicate Valid()
      reads this
    {
      NoDuplicates(tags) && forall a :: a in ScoreAspects ==> a in professionalScores
    }

    /** Opening the form for a brewing record. */
    constructor (brewingRecordId: string)
      ensures Valid() && InRange(overallScore, professionalScores, flavorWheel)
      ensures this.brewingRecordId == brewingRecordId
      ensures State() == Form([], 0, EmptyWheel, InitialScores, "", InitialTags)
    {
      this.brewingRecordId := brewingRecordId;
      photos := [];
      overallScore := 0;
      flavorWheel := EmptyWheel;
      professionalScores := InitialScores;
      notes := "";
      tags := InitialTags;
    }

    method AddTag(text: string)
      requires Valid()
      modifies this
      ensures Valid()
      ensures State() == old(State()).(tags := AddedTag(old(tags), text))
    {
      if text != "" && text !in tags {
        tags := tags + [text];
      }
      AddTagEffect(old(tags), text);
    }

    method RemoveTag(tagToRemove: string)
      requires Valid()
      modifies this
      ensures Valid()
      ensures State() == old(State()).(tags := RemovedTag(old(tags), tagToRemove))
    {
      tags := Filter(tags, IsNot(tagToRemove));
      RemoveTagKeepsDistinct(old(tags), tagToRemove);
    }

    method FlavorWheelChange(flavor: FlavorKey, value: int)
      modifies this
      ensures State() == old(State()).(flavorWheel := WithWheelValue(old(flavorWheel), flavor, value))
    {
      flavorWheel := WithWheelValue(flavorWheel, flavor, value);
    }

    method ProfessionalScoreChange(aspect: string, score: int)
      requires Valid()
      modifies this
      ensures Valid()
      ensures State() == old(State()).(professionalScores := old(professionalScores)[aspect := score])
    {
      professionalScores := professionalScores[aspect := score];
    }

    method SetOverallScore(score: int)
      modifies this
      ensures State() == old(State()).(overallScore := score)
    {
      overallScore := score;
    }

    /** Tapping dot `index` (0, 1 or 2) of a wheel entry writes `index + 1`. The screen
        draws dots for six entries only: chocolate and spicy have none. */
    method PressFlavorDot(flavor: FlavorKey, index: nat)
      requires index < 3
      requires InRange(overallScore, professionalScores, flavorWheel)
      modifies this
      ensures InRange(overallScore, professionalScores, flavorWheel)
      ensures WheelValue(flavorWheel, flavor) == index + 1
      ensures State() == old(State()).(flavorWheel := WithWheelValue(old(flavorWheel), flavor, index + 1))
    {
      FlavorWheelChange(flavor, index + 1);
    }

    /** Tapping star `index` (0 to 4) of a professional aspect writes `index + 1`. */
    method PressScoreStar(aspect: string, index: nat)
      requires index < 5
      requires Valid() && InRange(overallScore, professionalScores, flavorWheel)
      modifies this
      ensures Valid() && InRange(overallScore, professionalScores, flavorWheel)
      ensures State() == old(State()).(professionalScores := old(professionalScores)[aspect := index + 1])
    {
      ProfessionalScoreChange(aspect, index + 1);
    }

    /** Tapping star `index` (0 to 4) of the overall rating writes `index + 1`. */
    method PressOverallStar(index: nat)
      requires index < 5
      requires InRange(overallScore, professionalScores, flavorWheel)
      modifies this
      ensures InRange(overallScore, professionalScores, flavorWheel)
      ensures State() == old(State()).(overallScore := index + 1)
    {
      SetOverallScore(index + 1);
    }

    /** The image library's callback. */
    method AddPhoto(response: PickerResponse)
      modifies this
      ensures State() == old(State()).(photos := WithPhoto(old(photos), response))
    {
      if response.didCancel || (response.errorMessage.Some? && response.errorMessage.value != "") {
        return;
      }
      if response.assets.Some? && response.assets.value != [] {
        var imageUri := response.assets.value[0].uri;
        if imageUri.Some? && imageUri.value != "" {
          photos := photos + [imageUri.value];
        }
      }
    }

    /** `onChangeText` of the notes field. */
    method SetNotes(text: string)
      modifies this
      ensures State() == old(State()).(notes := text)
    {
      notes := text;
    }

    /** `handleAIAssist`, with the randomly chosen suggestion as a parameter. */
    method AIAssist(suggestion: string)
      modifies this
      ensures State() == old(State()).(notes := AssistedNotes(old(notes), suggestion))
    {
      notes := if notes != "" then notes + "\n" + suggestion else suggestion;
    }

    /** `handleSave`'s record, for a given id. */
    function Save(id: string): (record: TastingRecord)
      requires Valid()
      reads this
      ensures record.userId == "user1" && record.brewingRecordId == brewingRecordId
      ensures record.overallScore == overallScore
      ensures record.aromaScore == professionalScores["aroma"]
      ensures record.bodyScore == professionalScores["body"]
      ensures record.aftertasteScore == professionalScores["aftertaste"]
      ensures record.acidityScore == WheelValue(flavorWheel, Acidic)
      ensures record.flavorWheel == flavorWheel && record.notes == notes && record.photos == Some(photos)
    {
      assert "aroma" == ScoreAspects[0] && "body" == ScoreAspects[4] && "aftertaste" == ScoreAspects[5];
      BuildRecord(id, brewingRecordId, overallScore, professionalScores, flavorWheel, notes, photos)
    }
  }
}
