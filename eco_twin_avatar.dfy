/**
 * The stage table of src/components/EcoTwinAvatar.jsx: the plant shown for
 * an eco score.
 */
module EcoTwinAvatar {
  import opened Helpers

  /** The score shown when the component is given none. */
  const DefaultEcoScore: real := 50.0

  datatype Stage = WiltedPlant | GrowingPlant | BloomingTree
  {
    function Label(): string {
      match this
      case WiltedPlant => "Wilted Plant"
      case GrowingPlant => "Growing Plant"
      case BloomingTree => "Blooming Tree"
    }

    function Color(): string {
      match this
      case WiltedPlant => "text-red-500"
      case GrowingPlant => "text-yellow-500"
      case BloomingTree => "text-eco-green-500"
    }

    function Rank(): nat {
      match this
      case WiltedPlant => 0
      case GrowingPlant => 1
      case BloomingTree => 2
    }
  }

  /** `getAvatarStage(score)`: up to 30 wilted, up to 70 growing, above that blooming. */
  function AvatarStage(score: real): (r: Stage)
    ensures r == WiltedPlant <==> score <= 30.0
    ensures r == GrowingPlant <==> 30.0 < score <= 70.0
    ensures r == BloomingTree <==> score > 70.0
  {
    if score <= 30.0 then WiltedPlant
    else if score <= 70.0 then GrowingPlant
    else BloomingTree
  }

  /** The plant never wilts as the score rises. */
  lemma StageMonotone(s1: real, s2: real)
    requires s1 <= s2
    ensures AvatarStage(s1).Rank() <= AvatarStage(s2).Rank()
  {
  }

  /** Without a score the avatar is a growing plant. */
  lemma DefaultStage()
    ensures AvatarStage(DefaultEcoScore) == GrowingPlant
    ensures AvatarStage(DefaultEcoScore).Label() == "Growing Plant"
  {
  }

  /** The stage thresholds are the eco level's: each stage matches one level. */
  lemma StageMatchesEcoLevel(score: real)
    ensures AvatarStage(score).Rank() == EcoLevelOf(score).Rank()
    ensures AvatarStage(score) == WiltedPlant <==> EcoLevelOf(score) == Beginner
    ensures AvatarStage(score) == BloomingTree <==> EcoLevelOf(score) == Expert
  {
  }
}
