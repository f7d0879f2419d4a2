/**
 * The homepage editor (src/app/pages/AdminHomepagePage.tsx): per-section edits to the
 * local copy of the section list (visibility and the stats list) and the save, which
 * hands the list to the section store and reports the result.
 */
module AdminHomepage {
  import opened Wrappers
  import opened Lists
  import opened HomepageSections

  /** The three properties of a stat the editor can change. */
  datatype StatField = Icon | StatValue | Caption

  function WithField(s: StatItem, field: StatField, value: string): (r: StatItem)
    ensures field == Icon ==> r == s.(icon := value)
    ensures field == StatValue ==> r == s.(value := value)
    ensures field == Caption ==> r == s.(caption := value)
  {
    match field
    case Icon => s.(icon := value)
    case StatValue => s.(value := value)
    case Caption => s.(caption := value)
  }

  /** Applies `f` to every section with id `id` (`prev.map(s => s.id === id ? f(s) : s)`). */
  function MapMatching(sections: seq<Section>, id: string, f: Section -> Section): (r: seq<Section>)
    ensures |r| == |sections|
    ensures forall i :: 0 <= i < |r| ==> r[i] == (if sections[i].id == id then f(sections[i]) else sections[i])
  {
    if |sections| == 0 then []
    else [if sections[0].id == id then f(sections[0]) else sections[0]] + MapMatching(sections[1..], id, f)
  }

  // ---------------------------------------------------------------------------------
  // toggleVisibility
  // ---------------------------------------------------------------------------------

  function Flip(s: Section): Section { s.(isVisible := !s.isVisible) }

  /** `toggleVisibility(id)`. */
  function ToggleVisibility(sections: seq<Section>, id: string): (r: seq<Section>)
    ensures |r| == |sections|
    ensures forall i :: 0 <= i < |r| ==> r[i].(isVisible := sections[i].isVisible) == sections[i]
    ensures forall i :: 0 <= i < |r| ==> (r[i].isVisible != sections[i].isVisible <==> sections[i].id == id)
  {
    MapMatching(sections, id, Flip)
  }

  /** Toggling the same section twice gives back the list. */
  lemma ToggleTwice(sections: seq<Section>, id: string)
    ensures ToggleVisibility(ToggleVisibility(sections, id), id) == sections
  {
    var once := ToggleVisibility(sections, id);
    var twice := ToggleVisibility(once, id);
    assert forall i :: 0 <= i < |sections| ==> once[i].id == sections[i].id;
    assert forall i :: 0 <= i < |sections| ==> twice[i] == sections[i];
  }

  /** A toggle changes only the visibility of the named section, so what another section shows is unchanged. */
  lemma ToggleKeepsOtherVisibility(sections: seq<Section>, id: string, other: string)
    requires other != id
    ensures SectionConfig(ToggleVisibility(sections, id), other) == SectionConfig(sections, other)
    ensures SectionVisible(ToggleVisibility(sections, id), other) == SectionVisible(sections, other)
  {
    var r := ToggleVisibility(sections, id);
    var p := HasId(other);
    assert forall i :: 0 <= i < |r| ==> p(r[i]) == p(sections[i]);
    var a := FindIndex(r, p);
    var b := FindIndex(sections, p);
    if a == -1 || b == -1 {
      assert a == b;
    } else {
      assert !(a < b) && !(b < a);
      assert r[a] == sections[a];
    }
  }

  // ---------------------------------------------------------------------------------
  // The stats list of a section
  // ---------------------------------------------------------------------------------

  /** The stats of a section, when it has data with a stats list (`s.data?.stats`). */
  function Stats(s: Section): Option<seq<StatItem>>
  {
    if s.data.Some? then s.data.value.stats else None
  }

  /** The section with its stats replaced and the rest of its data kept (`{ ...s, data: { ...s.data, stats } }`). */
  function WithStats(s: Section, stats: seq<StatItem>): (r: Section)
    ensures Stats(r) == Some(stats)
    ensures r.(data := s.data) == s
    ensures s.data.Some? ==> r.data.value.rest == s.data.value.rest
    ensures s.data.None? ==> r.data.value.rest == map[]
  {
    var rest := if s.data.Some? then s.data.value.rest else map[];
    s.(data := Some(SectionData(Some(stats), rest)))
  }

  /** `newStats[i] = { ...newStats[i], [field]: value }` on a section that has stats. */
  function EditStat(s: Section, statIndex: int, field: StatField, value: string): (r: Section)
  {
    if Stats(s).Some? then
      var stats := Stats(s).value;
      if 0 <= statIndex < |stats| then WithStats(s, stats[statIndex := WithField(stats[statIndex], field, value)])
      else s
    else s
  }

  /** `updateStatValue(id, i, field, value)`. */
  function UpdateStatValue(sections: seq<Section>, id: string, statIndex: int, field: StatField, value: string): (r: seq<Section>)
    ensures |r| == |sections|
    ensures forall k :: 0 <= k < |r| && (sections[k].id != id || Stats(sections[k]).None?) ==> r[k] == sections[k]
    ensures forall k :: 0 <= k < |r| && sections[k].id == id && Stats(sections[k]).Some? &&
                        0 <= statIndex < |Stats(sections[k]).value| ==>
              var old_ := Stats(sections[k]).value;
              Stats(r[k]).Some? && |Stats(r[k]).value| == |old_| &&
              (forall j :: 0 <= j < |old_| && j != statIndex ==> Stats(r[k]).value[j] == old_[j]) &&
              Stats(r[k]).value[statIndex] == WithField(old_[statIndex], field, value) &&
              r[k].(data := sections[k].data) == sections[k]
  {
    MapMatching(sections, id, s => EditStat(s, statIndex, field, value))
  }

  const NewStat := StatItem("Star", "0", "New Stat")

  /** `addStat(id)`: a starter stat goes at the end of the section's stats, which start empty when missing. */
  function AddStat(sections: seq<Section>, id: string): (r: seq<Section>)
    ensures |r| == |sections|
    ensures forall k :: 0 <= k < |r| && sections[k].id != id ==> r[k] == sections[k]
    ensures forall k :: 0 <= k < |r| && sections[k].id == id ==>
              Stats(r[k]) == Some(Stats(sections[k]).GetOr([]) + [NewStat]) &&
              r[k].(data := sections[k].data) == sections[k]
  {
    MapMatching(sections, id, s => WithStats(s, Stats(s).GetOr([]) + [NewStat]))
  }

  /** `removeStat(id, i)`: the stat at index i goes from the matching sections that have stats. */
  function RemoveStat(sections: seq<Section>, id: string, statIndex: int): (r: seq<Section>)
    ensures |r| == |sections|
    ensures forall k :: 0 <= k < |r| && (sections[k].id != id || Stats(sections[k]).None?) ==> r[k] == sections[k]
    ensures forall k :: 0 <= k < |r| && sections[k].id == id && Stats(sections[k]).Some? ==>
              Stats(r[k]) == Some(RemoveAt(Stats(sections[k]).value, statIndex)) &&
              r[k].(data := sections[k].data) == sections[k]
  {
    MapMatching(sections, id, s => if Stats(s).Some? then WithStats(s, RemoveAt(Stats(s).value, statIndex)) else s)
  }

  /** Adding a stat and then removing the last one gives back the section's stats. */
  lemma AddThenRemoveStat(sections: seq<Section>, id: string, k: nat)
    requires k < |sections| && sections[k].id == id
    ensures var stats := Stats(sections[k]).GetOr([]);
            Stats(RemoveStat(AddStat(sections, id), id, |stats|)[k]) == Some(stats)
  {
    var stats := Stats(sections[k]).GetOr([]);
    var added := AddStat(sections, id);
    assert added[k].id == id && Stats(added[k]) == Some(stats + [NewStat]);
    assert (stats + [NewStat])[..|stats|] == stats;
    assert (stats + [NewStat])[|stats| + 1..] == [];
    assert RemoveAt(stats + [NewStat], |stats|) == stats;
    var removed := RemoveStat(added, id, |stats|);
    assert Stats(removed[k]) == Some(RemoveAt(stats + [NewStat], |stats|));
  }

  /** Adding a stat grows the section's stats count by exactly one. */
  lemma AddStatCount(sections: seq<Section>, id: string, k: nat)
    requires k < |sections| && sections[k].id == id
    ensures |Stats(AddStat(sections, id)[k]).value| == |Stats(sections[k]).GetOr([])| + 1
  {
  }

  // ---------------------------------------------------------------------------------
  // The page
  // ---------------------------------------------------------------------------------

  datatype MessageKind = Success | Failure

  datatype Message = Message(kind: MessageKind, text: string)

  /** The editor's local copy of the list and its banner; `store` is the section store it saves to. */
  class AdminHomepagePage {
    var sections: seq<Section>
    var saving: bool
    var message: Option<Message>
    const store: SectionStore

    constructor(store: SectionStore)
      ensures this.store == store && sections == store.sections && !saving && message.None?
    {
      this.store := store;
      sections := store.sections;
      saving := false;
      message := None;
    }

    method HandleToggleVisibility(id: string)
      modifies this
      ensures sections == ToggleVisibility(old(sections), id)
      ensures saving == old(saving) && message == old(message)
    {
      sections := ToggleVisibility(sections, id);
    }

    method HandleAddStat(id: string)
      modifies this
      ensures sections == AddStat(old(sections), id)
      ensures saving == old(saving) && message == old(message)
    {
      sections := AddStat(sections, id);
    }

    method HandleRemoveStat(id: string, statIndex: int)
      modifies this
      ensures sections == RemoveStat(old(sections), id, statIndex)
      ensures saving == old(saving) && message == old(message)
    {
      sections := RemoveStat(sections, id, statIndex);
    }

    method HandleUpdateStatValue(id: string, statIndex: int, field: StatField, value: string)
      modifies this
      ensures sections == UpdateStatValue(old(sections), id, statIndex, field, value)
      ensures saving == old(saving) && message == old(message)
    {
      sections := UpdateStatValue(sections, id, statIndex, field, value);
    }

    /**
     * `handleSave`: the success banner exactly when the store took the list (which it
     * then holds), the error banner otherwise; saving ends either way.
     */
    method HandleSave(writable: bool)
      modifies this, store
      ensures message == (if writable then Some(Message(Success, "Homepage sections saved successfully!"))
                          else Some(Message(Failure, "Failed to save sections")))
      ensures writable ==> store.stored == Some(Written(sections)) && store.sections == sections
      ensures !writable ==> store.stored == old(store.stored) && store.sections == old(store.sections)
      ensures !saving && sections == old(sections)
    {
      saving := true;
      message := None;
      var ok := store.SaveSections(sections, writable);
      if ok {
        message := Some(Message(Success, "Homepage sections saved successfully!"));
      } else {
        message := Some(Message(Failure, "Failed to save sections"));
      }
      saving := false;
    }
  }
}
