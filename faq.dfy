/**
 * The FAQ accordion (`FAQ`): five fixed entries and one piece of state, the index of the
 * expanded entry or none. A click on entry `index` expands it, or collapses it if it was
 * the expanded one.
 */
module Faq {
  import opened Wrappers

  datatype FaqItem = FaqItem(question: string, answer: string)

  const FaqData: seq<FaqItem> := [
    FaqItem("What is Agentia World?",
      "Agentia World is a cutting-edge AI technology company specializing in developing advanced artificial intelligence solutions for businesses and individuals."),
    FaqItem("What services do you offer?",
      "We offer AI-powered solutions including chatbots, data analysis, machine learning models, and custom AI development tailored to your specific needs."),
    FaqItem("How can AI benefit my business?",
      "AI can automate tasks, provide insights from data, improve customer service, and enhance decision-making processes, leading to increased efficiency and growth."),
    FaqItem("Is my data secure with your AI solutions?",
      "Yes, we prioritize data security and privacy. All our AI solutions comply with industry standards and regulations for data protection."),
    FaqItem("Do you offer custom AI solutions?",
      "Yes, we work closely with clients to develop customized AI solutions that address their specific challenges and requirements.")
  ]

  /** `activeIndex` is none or an index of an entry. */
  predicate ValidActive(active: Option<nat>) {
    active.None? || active.value < |FaqData|
  }

  /** Entry `i` is expanded (`activeIndex === index`). */
  predicate IsExpanded(active: Option<nat>, i: nat) {
    active == Some(i)
  }

  /** `activeIndex === index ? null : index`: the clicked entry is expanded afterwards exactly when it was not before, and no other entry is. */
  function Toggled(active: Option<nat>, index: nat): (r: Option<nat>)
    ensures IsExpanded(r, index) <==> !IsExpanded(active, index)
    ensures forall j :: j != index ==> !IsExpanded(r, j)
  {
    if active == Some(index) then None else Some(index)
  }

  /** The set of expanded entries. */
  function Expanded(active: Option<nat>): set<nat> {
    set i: nat | i < |FaqData| && IsExpanded(active, i)
  }

  /** At most one entry is expanded, and exactly one when `activeIndex` holds a valid index. */
  lemma {:induction false} AtMostOneExpanded(active: Option<nat>)
    requires ValidActive(active)
    ensures |Expanded(active)| <= 1
    ensures |Expanded(active)| == 1 <==> active.Some?
  {
    if active.Some? {
      assert IsExpanded(active, active.value);
      assert Expanded(active) == {active.value};
    } else {
      assert Expanded(active) == {};
    }
  }

  /** The state after a sequence of clicks, in order. */
  function AfterClicks(active: Option<nat>, clicks: seq<nat>): Option<nat>
    decreases |clicks|
  {
    if clicks == [] then active else AfterClicks(Toggled(active, clicks[0]), clicks[1..])
  }

  /** Any sequence of clicks on entries keeps `activeIndex` none or a valid index. */
  lemma {:induction false} ClicksStayValid(active: Option<nat>, clicks: seq<nat>)
    requires ValidActive(active)
    requires forall k :: 0 <= k < |clicks| ==> clicks[k] < |FaqData|
    ensures ValidActive(AfterClicks(active, clicks))
    decreases |clicks|
  {
    if clicks != [] {
      ClicksStayValid(Toggled(active, clicks[0]), clicks[1..]);
    }
  }

  /**
   * Two clicks on the same entry restore the state when nothing or that entry was
   * expanded, and leave everything collapsed when another entry was expanded.
   */
  lemma ClickTwice(active: Option<nat>, index: nat)
    ensures AfterClicks(active, [index, index]) ==
      if active.Some? && active.value != index then None else active
  {
    var once := Toggled(active, index);
    assert [index, index][1..] == [index];
    assert AfterClicks(active, [index, index]) == AfterClicks(once, [index]);
    assert [index][1..] == [];
    assert AfterClicks(once, [index]) == Toggled(once, index);
  }

  class Accordion {
    var activeIndex: Option<nat>

    ghost predicate Valid()
      reads this
    {
      ValidActive(activeIndex)
    }

    /** Nothing is expanded initially. */
    constructor ()
      ensures Valid() && activeIndex == None
    {
      activeIndex := None;
    }

    /** The `onClick` of entry `index`'s header button. */
    method Click(index: nat)
      requires Valid() && index < |FaqData|
      modifies this
      ensures Valid()
      ensures activeIndex == Toggled(old(activeIndex), index)
    {
      activeIndex := if activeIndex == Some(index) then None else Some(index);
    }
  }
}
