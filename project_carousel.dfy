/**
 * The project carousel (`ProjectCarousel`): four fixed projects and the index `current` of
 * the one in front. Previous and next step it with wrap-around; clicking a slide or its dot
 * brings that slide to the front.
 */
module ProjectCarousel {
  import Cyclic

  datatype Project = Project(title: string, button: string, src: string, description: string)

  const Projects: seq<Project> := [
    Project("Modern Interior Design", "View Project", "/project1.jpg",
      "Crafting elegant spaces with innovative design solutions"),
    Project("Portfolio System", "Explore More", "/project2.jpg",
      "Dynamic portfolio showcase platform with modern aesthetics"),
    Project("Resume Builder", "Try Now", "/project3.jpg",
      "AI-powered resume creation and optimization tool"),
    Project("Cafe Website", "Visit Site", "/project4.jpg",
      "Interactive cafe management and ordering system")
  ]

  class Carousel {
    var current: nat

    ghost predicate Valid()
      reads this
    {
      current < |Projects|
    }

    constructor ()
      ensures Valid() && current == 0
    {
      current := 0;
    }

    /** `handlePrevious`: one slide back; from the first slide to the last. */
    method HandlePrevious()
      requires Valid()
      modifies this
      ensures Valid()
      ensures current == Cyclic.Previous(old(current), |Projects|)
    {
      current := (current - 1 + |Projects|) % |Projects|;
    }

    /** `handleNext`: one slide forward; from the last slide to the first. */
    method HandleNext()
      requires Valid()
      modifies this
      ensures Valid()
      ensures current == Cyclic.Next(old(current), |Projects|)
    {
      current := (current + 1) % |Projects|;
    }

    /** `handleSlideClick`: slide `index` comes to the front; `updated` says whether the state was set at all. */
    method HandleSlideClick(index: nat) returns (updated: bool)
      requires Valid() && index < |Projects|
      modifies this
      ensures Valid()
      ensures current == index
      ensures updated <==> old(current) != index
    {
      updated := current != index;
      if updated {
        current := index;
      }
    }

    /** The slides drawn in front (`current === index`): always exactly the one at `current`. */
    function ActiveSlides(): (s: set<nat>)
      requires Valid()
      reads this
      ensures s == {current} && |s| == 1
    {
      Cyclic.ExactlyOneHighlighted(current, |Projects|);
      Cyclic.Highlighted(current, |Projects|)
    }
  }
}
