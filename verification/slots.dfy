/** The fixed-width loadout display: one slot per unit of capacity, showing
    the selected tools in order and a placeholder in every unused slot. */
module Slots {
  import opened Tools
  import opened Wrappers

  /** The placeholder shown in a slot no tool occupies. */
  const EmptySlot: string := "[empty]"

  /** Builds the slot list slot by slot, as the loadout display does. */
  method BuildSlots(sel: seq<Tool>, maxTools: nat) returns (slots: seq<string>)
    ensures |slots| == maxTools
    ensures forall i :: 0 <= i < |sel| && i < maxTools ==> slots[i] == Name(sel[i])
    ensures forall i :: |sel| <= i < maxTools ==> slots[i] == EmptySlot
    ensures ReadSlots(slots) == sel[..if |sel| < maxTools then |sel| else maxTools]
  {
    slots := [];
    var i := 0;
    while i < maxTools
      invariant i <= maxTools && |slots| == i
      invariant forall j :: 0 <= j < i && j < |sel| ==> slots[j] == Name(sel[j])
      invariant forall j :: |sel| <= j < i ==> slots[j] == EmptySlot
    {
      slots := slots + [if i < |sel| then Name(sel[i]) else EmptySlot];
      i := i + 1;
    }
    var k := if |sel| < maxTools then |sel| else maxTools;
    var rest := slots[k..];
    assert Names(sel[..k]) == slots[..k];
    assert slots == Names(sel[..k]) + rest;
    assert rest == [] || rest[0] == EmptySlot;
    ReadBack(sel[..k], rest);
  }

  /** Reads a slot list back into tools: the leading slots that name a tool,
      up to the first one that does not. */
  function ReadSlots(slots: seq<string>): (r: seq<Tool>)
    ensures |r| <= |slots|
    ensures forall i :: 0 <= i < |r| ==> Name(r[i]) == slots[i]
    ensures |r| < |slots| ==> ToolOf(slots[|r|]).None?
    decreases |slots|
  {
    if slots == [] then []
    else match ToolOf(slots[0])
      case None => []
      case Some(t) => [t] + ReadSlots(slots[1..])
  }

  /** A slot list that starts with a tool's name reads as that tool followed
      by whatever the remaining slots read as. */
  lemma ReadSlotsFirst(slots: seq<string>, t: Tool)
    requires slots != [] && slots[0] == Name(t)
    ensures ReadSlots(slots) == [t] + ReadSlots(slots[1..])
  {
    NameRoundTrip(t);
  }

  /** Tool names followed by a placeholder (or by nothing) read back as
      exactly those tools. */
  lemma {:induction false} ReadBack(ts: seq<Tool>, rest: seq<string>)
    requires rest == [] || rest[0] == EmptySlot
    ensures ReadSlots(Names(ts) + rest) == ts
    decreases |ts|
  {
    if ts == [] {
      assert Names(ts) + rest == rest;
      if rest != [] {
        assert ToolOf(rest[0]).None?;
      }
    } else {
      var slots := Names(ts) + rest;
      assert Names(ts) == [Name(ts[0])] + Names(ts[1..]);
      assert slots == [Name(ts[0])] + (Names(ts[1..]) + rest);
      ReadSlotsFirst(slots, ts[0]);
      assert slots[1..] == Names(ts[1..]) + rest;
      ReadBack(ts[1..], rest);
      assert ts == [ts[0]] + ts[1..];
    }
  }
}
