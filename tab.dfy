/** The three tabs of the tab bar, their titles and icon asset names. */
module Tab {

  datatype TabType = Map | Explore | Register

  /** Position of a case in its declaration. */
  function Ordinal(t: TabType): nat
  {
    match t
    case Map => 0
    case Explore => 1
    case Register => 2
  }

  /** The raw value Swift derives from the case name. */
  function RawValue(t: TabType): string
  {
    match t
    case Map => "map"
    case Explore => "explore"
    case Register => "register"
  }

  /** `allCases`: every tab exactly once, in declaration order. */
  function AllCases(): (cs: seq<TabType>)
    ensures |cs| == 3
    ensures forall t :: Ordinal(t) < |cs| && cs[Ordinal(t)] == t
    ensures forall i :: 0 <= i < |cs| ==> Ordinal(cs[i]) == i
  {
    [Map, Explore, Register]
  }

  function Title(t: TabType): (s: string)
    ensures s != ""
  {
    match t
    case Map => "내 지도"
    case Explore => "탐색"
    case Register => "등록"
  }

  /** Distinct tabs carry distinct titles. */
  lemma TitlesDistinct(a: TabType, b: TabType)
    requires a != b
    ensures Title(a) != Title(b)
  {
    match a
    case Map =>
      assert |Title(a)| == 4;
      assert |Title(b)| == 2;
    case Explore =>
      assert Title(a)[0] == '탐';
      assert b.Map? ==> |Title(b)| == 4;
      assert b.Register? ==> Title(b)[0] == '등';
    case Register =>
      assert Title(a)[0] == '등';
      assert b.Map? ==> |Title(b)| == 4;
      assert b.Explore? ==> Title(b)[0] == '탐';
  }

  /** `imageName(selected:)`: the `main400` asset when selected, the `gray400` one otherwise. */
  function ImageName(t: TabType, selected: bool): (s: string)
    ensures |s| == |RawValue(t)| + 11
    ensures s[|RawValue(t)| + 4] == (if selected then 'm' else 'g')
  {
    match t
    case Map => if selected then "ic_map_main400" else "ic_map_gray400"
    case Explore => if selected then "ic_explore_main400" else "ic_explore_gray400"
    case Register => if selected then "ic_register_main400" else "ic_register_gray400"
  }

  /** Every icon name is `ic_`, the tab's raw value, and `_main400` when selected or
      `_gray400` otherwise. */
  lemma ImageNameFormat(t: TabType, selected: bool)
    ensures selected ==> ImageName(t, selected) == "ic_" + RawValue(t) + "_main400"
    ensures !selected ==> ImageName(t, selected) == "ic_" + RawValue(t) + "_gray400"
  {
    match t
    case Map => MapIconNames();
    case Explore => ExploreIconNames();
    case Register => RegisterIconNames();
  }

  // The three cases of `ImageNameFormat`, one literal pair each, compared character
  // by character.

  lemma MapIconNames()
    ensures ImageName(Map, true) == "ic_" + "map" + "_main400"
    ensures ImageName(Map, false) == "ic_" + "map" + "_gray400"
  {
    assert forall i :: 0 <= i < 14 ==> ImageName(Map, true)[i] == ("ic_" + "map" + "_main400")[i];
    assert forall i :: 0 <= i < 14 ==> ImageName(Map, false)[i] == ("ic_" + "map" + "_gray400")[i];
  }

  lemma ExploreIconNames()
    ensures ImageName(Explore, true) == "ic_" + "explore" + "_main400"
    ensures ImageName(Explore, false) == "ic_" + "explore" + "_gray400"
  {
    assert forall i :: 0 <= i < 18 ==> ImageName(Explore, true)[i] == ("ic_" + "explore" + "_main400")[i];
    assert forall i :: 0 <= i < 18 ==> ImageName(Explore, false)[i] == ("ic_" + "explore" + "_gray400")[i];
  }

  lemma RegisterIconNames()
    ensures ImageName(Register, true) == "ic_" + "register" + "_main400"
    ensures ImageName(Register, false) == "ic_" + "register" + "_gray400"
  {
    assert forall i :: 0 <= i < 19 ==> ImageName(Register, true)[i] == ("ic_" + "register" + "_main400")[i];
    assert forall i :: 0 <= i < 19 ==> ImageName(Register, false)[i] == ("ic_" + "register" + "_gray400")[i];
  }

  /** The selected and unselected icons of a tab always differ. */
  lemma SelectedIconDiffers(t: TabType)
    ensures ImageName(t, true) != ImageName(t, false)
  {
    var k := |RawValue(t)| + 4;
    assert ImageName(t, true)[k] != ImageName(t, false)[k];
  }
}
