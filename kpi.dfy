/**
 * The colour of a KPI card's value (KpiCard.jsx): chosen from the card's
 * caption by three substring tests taken in order.
 */
module Kpi {
  import opened Text

  datatype Tone = Green | Amber | Red | Slate

  /** The Tailwind class each tone renders with. */
  function ToneClass(t: Tone): string {
    match t
    case Green => "text-green-600"
    case Amber => "text-amber-600"
    case Red => "text-red-600"
    case Slate => "text-slate-900"
  }

  /** `colorClass` as a tone: the first of "On-Time", "Risk", "Delayed" the caption contains decides. */
  function ToneFor(caption: string): (t: Tone)
    ensures t == Green <==> Contains(caption, "On-Time")
    ensures t == Amber <==> !Contains(caption, "On-Time") && Contains(caption, "Risk")
    ensures t == Red <==> !Contains(caption, "On-Time") && !Contains(caption, "Risk") && Contains(caption, "Delayed")
    ensures t == Slate <==> !Contains(caption, "On-Time") && !Contains(caption, "Risk") && !Contains(caption, "Delayed")
  {
    if Contains(caption, "On-Time") then Green
    else if Contains(caption, "Risk") then Amber
    else if Contains(caption, "Delayed") then Red
    else Slate
  }

  /** Distinct tones render with distinct classes. */
  lemma ToneClassInjective(s: Tone, t: Tone)
    ensures ToneClass(s) == ToneClass(t) <==> s == t
  {
    if s != t {
      assert ToneClass(s)[5] != ToneClass(t)[5];
    }
  }

  /** `colorClass`: one of the four classes, green exactly for "On-Time" captions and neutral exactly when no word matches. */
  function ColorClass(caption: string): (cls: string)
    ensures cls in ["text-green-600", "text-amber-600", "text-red-600", "text-slate-900"]
    ensures cls == "text-green-600" <==> Contains(caption, "On-Time")
    ensures cls == "text-amber-600" <==> !Contains(caption, "On-Time") && Contains(caption, "Risk")
    ensures cls == "text-slate-900" <==>
      !Contains(caption, "On-Time") && !Contains(caption, "Risk") && !Contains(caption, "Delayed")
  {
    ToneClassInjective(ToneFor(caption), Green);
    ToneClassInjective(ToneFor(caption), Amber);
    ToneClassInjective(ToneFor(caption), Slate);
    ToneClass(ToneFor(caption))
  }

  /** A string in which no two neighbouring characters start `pattern` does not contain it. */
  lemma AbsentByFirstPair(s: string, pattern: string)
    requires |pattern| >= 2
    requires forall i :: 0 <= i < |s| - 1 ==> !(s[i] == pattern[0] && s[i + 1] == pattern[1])
    ensures !Contains(s, pattern)
  {
    forall i | 0 <= i <= |s|
      ensures !OccursAt(s, pattern, i)
    {
      if i + |pattern| <= |s| {
        assert s[i..i + |pattern|][0] == s[i] && s[i..i + |pattern|][1] == s[i + 1];
      }
    }
  }

  /** The overview's three percentage cards are green, amber and red. */
  lemma OverviewCardTones()
    ensures ToneFor("% On-Time") == Green
    ensures ToneFor("% At Risk") == Amber
    ensures ToneFor("% Delayed") == Red
  {
    assert OccursAt("% On-Time", "On-Time", 2);
    AbsentByFirstPair("% At Risk", "On-Time");
    assert OccursAt("% At Risk", "Risk", 5);
    AbsentByFirstPair("% Delayed", "On-Time");
    AbsentByFirstPair("% Delayed", "Risk");
    assert OccursAt("% Delayed", "Delayed", 2);
  }

  /** The overview's three cards without a status word — total orders, processing time and distance — stay neutral. */
  lemma NeutralOverviewCards(caption: string)
    requires caption in ["Total Orders", "Avg Processing Time", "Avg Shipment Distance"]
    ensures ToneFor(caption) == Slate
  {
    if caption == "Total Orders" {
      AbsentByFirstPair("Total Orders", "On-Time");
      AbsentByFirstPair("Total Orders", "Risk");
      AbsentByFirstPair("Total Orders", "Delayed");
    } else if caption == "Avg Processing Time" {
      AbsentByFirstPair("Avg Processing Time", "On-Time");
      AbsentByFirstPair("Avg Processing Time", "Risk");
      AbsentByFirstPair("Avg Processing Time", "Delayed");
    } else {
      AbsentByFirstPair("Avg Shipment Distance", "On-Time");
      AbsentByFirstPair("Avg Shipment Distance", "Risk");
      AbsentByFirstPair("Avg Shipment Distance", "Delayed");
    }
  }

  /** "On-Time" wins over the other two words: a caption with all three is green. */
  lemma OnTimeTakesPrecedence(caption: string)
    requires Contains(caption, "On-Time")
    ensures ColorClass(caption) == "text-green-600"
  {
  }
}
