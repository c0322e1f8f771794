/** The two decisions the page takes from the viewport width. */
module Viewport {
  import Config

  /** Scroll animations are attached only on viewports wider than the breakpoint. */
  predicate MotionEnabled(width: int) {
    width > Config.AosMobileBreakpoint
  }

  /** The image size tiers the content API offers under `formats`. */
  datatype Tier = Small | Medium | Large {

    /** The key the tier is looked up under in a media object's `formats`. */
    function Key(): string {
      match this
      case Small => "small"
      case Medium => "medium"
      case Large => "large"
    }

    function Rank(): nat {
      match this
      case Small => 0
      case Medium => 1
      case Large => 2
    }
  }

  /** The size tier for a viewport width (`setImageSize`). */
  function ImageSize(width: int): (t: Tier)
    ensures t == Small <==> width <= 600
    ensures t == Medium <==> 600 < width <= 1200
    ensures t == Large <==> 1200 < width
  {
    if width <= 600 then Small
    else if width <= 1200 then Medium
    else Large
  }

  /** A wider viewport never gets a smaller image. */
  lemma ImageSizeMonotone(w1: int, w2: int)
    requires w1 <= w2
    ensures ImageSize(w1).Rank() <= ImageSize(w2).Rank()
  {
  }

  /** Animations start strictly above the breakpoint and, once on, stay on
      for every wider viewport; a viewport that animates never gets the
      small image tier, and one that gets the large tier always animates. */
  lemma MotionBreakpoint(w1: int, w2: int)
    ensures !MotionEnabled(768) && MotionEnabled(769)
    ensures w1 <= w2 && MotionEnabled(w1) ==> MotionEnabled(w2)
    ensures MotionEnabled(w1) ==> ImageSize(w1) != Small
    ensures ImageSize(w1) == Large ==> MotionEnabled(w1)
  {
  }
}
