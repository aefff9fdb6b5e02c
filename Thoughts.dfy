/** The anonymous thought exchange of src/components/ThoughtExchange.tsx: a
    list of thoughts that only grows at its end, a simulated partner reply
    after each shared thought, and a switch that reveals or hides who wrote
    each one. */
module Thoughts {
  import opened Wrappers
  import opened Text
  import opened Utf16

  /** `id` is the clock reading, in milliseconds, at which it was made. */
  datatype Thought = Thought(id: int, text: string, revealed: bool, isPartner: bool)

  /** The textarea accepts at most this many UTF-16 units. */
  const MaxLength := 500

  /** The texts a simulated partner reply is drawn from. */
  const CannedReplies: seq<string> := [
    "I love how we can be completely honest in this safe space",
    "Your energy today feels different - more peaceful somehow",
    "I've been carrying this feeling all day and needed to share it with you",
    "Sometimes I write things here I couldn't say out loud yet"
  ]

  /** The two thoughts the exchange starts with; the second is the
      partner's. */
  const Seeded: seq<Thought> := [
    Thought(1, "I've been thinking about how grateful I am to have someone who truly understands me. This space feels like home.", false, false),
    Thought(2, "Sometimes I wonder if you know how much your presence means to me, even in silence.", false, true)
  ]

  /** Every thought with its `revealed` flag set to `flag`; nothing else
      about any thought changes, nor their number or order. */
  function WithRevealed(ts: seq<Thought>, flag: bool): (r: seq<Thought>)
    ensures |r| == |ts|
    ensures forall i :: 0 <= i < |ts| ==> r[i] == ts[i].(revealed := flag)
  {
    if ts == [] then [] else [ts[0].(revealed := flag)] + WithRevealed(ts[1..], flag)
  }

  /** The attribution under a thought: none unless it is revealed; then
      "from" the partner's name for the partner's thoughts and "from You"
      for one's own. */
  function Label(t: Thought, partner: string): (shown: Option<string>)
    ensures shown.Some? <==> t.revealed
    ensures shown.Some? ==> shown.value == (if t.isPartner then "from " + partner else "from You")
  {
    if !t.revealed then None
    else if t.isPartner then Some("from " + partner)
    else Some("from You")
  }

  /** Setting the flag twice is setting it once, to the later value; in
      particular reveal and hide are each idempotent. */
  lemma LaterFlagWins(ts: seq<Thought>, f: bool, g: bool)
    ensures WithRevealed(WithRevealed(ts, f), g) == WithRevealed(ts, g)
  {
  }

  /** After a reveal every thought carries its label; after a hide none
      does. */
  lemma LabelsFollowTheSwitch(ts: seq<Thought>, partner: string, i: int)
    requires 0 <= i < |ts|
    ensures Label(WithRevealed(ts, true)[i], partner) ==
      Some(if ts[i].isPartner then "from " + partner else "from You")
    ensures Label(WithRevealed(ts, false)[i], partner) == None
  {
  }

  /** A thought written only in emoji keeps at most 250 of them, and plain
      text in the Basic Multilingual Plane keeps its first 500 characters. */
  lemma ThoughtLimitCountsUnits(s: string)
    ensures (forall i :: 0 <= i < |s| ==> s[i] as int > 0xFFFF) ==>
      |CutToUnits(s, MaxLength)| == if |s| <= 250 then |s| else 250
    ensures InBmp(s) ==>
      CutToUnits(s, MaxLength) == if |s| <= MaxLength then s else s[..MaxLength]
  {
    if forall i :: 0 <= i < |s| ==> s[i] as int > 0xFFFF {
      AstralTextKeepsHalf(s, MaxLength);
    }
    if InBmp(s) {
      BmpCutIsPlainCut(s, MaxLength);
    }
  }

  /** The exchange's state. `pendingReplies` counts the simulated replies
      that shared thoughts have scheduled and that have not arrived yet. */
  class ThoughtExchange {
    var myThought: string
    var thoughts: seq<Thought>
    var showRevealed: bool
    var pendingReplies: nat

    constructor ()
      ensures myThought == [] && thoughts == Seeded && !showRevealed && pendingReplies == 0
    {
      myThought := [];
      thoughts := Seeded;
      showRevealed := false;
      pendingReplies := 0;
    }

    /** Typing in the textarea: `maxLength` keeps the longest prefix of
        whole characters that fits in 500 UTF-16 units. */
    method TypeThought(value: string)
      modifies this
      ensures myThought == CutToUnits(value, MaxLength)
      ensures Utf16Length(myThought) <= MaxLength
      ensures thoughts == old(thoughts) && showRevealed == old(showRevealed)
      ensures pendingReplies == old(pendingReplies)
    {
      myThought := CutToUnits(value, MaxLength);
    }

    /** `submitThought` at time `now`. A blank input is refused and nothing
        changes. Otherwise the text, untrimmed, is appended as one's own
        thought, the input is cleared and a partner reply is scheduled. */
    method Submit(now: int) returns (accepted: bool)
      modifies this
      ensures accepted <==> !Blank(old(myThought))
      ensures !accepted ==>
                thoughts == old(thoughts) && myThought == old(myThought)
                && pendingReplies == old(pendingReplies)
      ensures accepted ==>
                thoughts == old(thoughts) + [Thought(now, old(myThought), false, false)]
                && myThought == [] && pendingReplies == old(pendingReplies) + 1
      ensures showRevealed == old(showRevealed)
    {
      if Trim(myThought) == [] {
        return false;
      }
      thoughts := thoughts + [Thought(now, myThought, false, false)];
      myThought := [];
      pendingReplies := pendingReplies + 1;
      accepted := true;
    }

    /** A scheduled partner reply arrives at time `now`, with the canned text
        chosen by `pick`; it is appended as the partner's. */
    method PartnerReplies(now: int, pick: nat)
      requires pendingReplies > 0 && pick < |CannedReplies|
      modifies this
      ensures thoughts == old(thoughts) + [Thought(now + 1, CannedReplies[pick], false, true)]
      ensures pendingReplies == old(pendingReplies) - 1
      ensures myThought == old(myThought) && showRevealed == old(showRevealed)
    {
      thoughts := thoughts + [Thought(now + 1, CannedReplies[pick], false, true)];
      pendingReplies := pendingReplies - 1;
    }

    /** `revealSources`. */
    method RevealSources()
      modifies this
      ensures thoughts == WithRevealed(old(thoughts), true) && showRevealed
      ensures myThought == old(myThought) && pendingReplies == old(pendingReplies)
    {
      thoughts := WithRevealed(thoughts, true);
      showRevealed := true;
    }

    /** `hideRevealed`. */
    method HideRevealed()
      modifies this
      ensures thoughts == WithRevealed(old(thoughts), false) && !showRevealed
      ensures myThought == old(myThought) && pendingReplies == old(pendingReplies)
    {
      thoughts := WithRevealed(thoughts, false);
      showRevealed := false;
    }

    /** The one button: hide when revealed, reveal otherwise. */
    method ToggleSources()
      modifies this
      ensures showRevealed == !old(showRevealed)
      ensures thoughts == WithRevealed(old(thoughts), showRevealed)
      ensures myThought == old(myThought) && pendingReplies == old(pendingReplies)
    {
      if showRevealed {
        HideRevealed();
      } else {
        RevealSources();
      }
    }
  }
}
