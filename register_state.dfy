/** The registration flow's state record and its initial values. */
module Register {
  import opened Common
  import Toasts

  /** Stand-in for the flow's steps (the start step, the review step, the end); the
      record starts at `Start`. */
  datatype RegisterStep = Start | Middle | End

  /** Stand-in for a recommendation text row: its identifier and its text. */
  datatype TextList = TextList(id: Uuid, text: string)

  /** Stand-ins for the place, photo-picker and upload types. */
  datatype PlaceInfo = PlaceInfo(placeName: string, placeAddress: string)
  datatype PickerItem = PickerItem(itemIdentifier: string)
  datatype UploadImage = UploadImage(imageId: Uuid)

  /** Stand-in for the upload error states: only the starting case is named here. */
  datatype UploadImageErrorState = Initial

  /** The record without its keyboard height (a floating-point layout value). */
  datatype RegisterState = RegisterState(
    registerStep: RegisterStep,
    isLoading: bool,
    placeText: string,
    toast: Option<Toasts.Toast>,
    recommendTexts: seq<TextList>,
    categorys: seq<CategoryChip>,
    selectedCategory: seq<CategoryChip>,
    isDropDownPresented: bool,
    isToolTipPresented: bool,
    isDisableStartButton: bool,
    isDisablePlusButton: bool,
    simpleText: string,
    detailText: string,
    selectableCount: int,
    selectedPlace: Option<PlaceInfo>,
    searchedPlaces: seq<PlaceInfo>,
    pickerItems: seq<PickerItem>,
    uploadImages: seq<UploadImage>,
    isDisableMiddleButton: bool,
    isSimpleTextError: bool,
    isDetailTextError: bool,
    uploadImageErrorState: UploadImageErrorState)

  /** `RegisterState()`: every field at its declared default. `firstTextId` is the
      identifier drawn for the one recommendation row the record starts with. */
  function InitialRegisterState(firstTextId: Uuid): (s: RegisterState)
    ensures s.registerStep == Start && !s.isLoading
    ensures s.placeText == "" && s.toast == None
    ensures |s.recommendTexts| == 1 && s.recommendTexts[0].id == firstTextId
    ensures s.categorys == [] && s.selectedCategory == []
    ensures !s.isDropDownPresented && s.isToolTipPresented
    ensures s.isDisableStartButton && !s.isDisablePlusButton
    ensures s.simpleText == "" && s.detailText == ""
    ensures s.selectableCount == 5
    ensures s.selectedPlace == None
    ensures s.searchedPlaces == [] && s.pickerItems == [] && s.uploadImages == []
    ensures s.isDisableMiddleButton && s.isSimpleTextError && s.isDetailTextError
    ensures s.uploadImageErrorState == Initial
  {
    RegisterState(
      registerStep := Start,
      isLoading := false,
      placeText := "",
      toast := None,
      recommendTexts := [TextList(firstTextId, "")],
      categorys := [],
      selectedCategory := [],
      isDropDownPresented := false,
      isToolTipPresented := true,
      isDisableStartButton := true,
      isDisablePlusButton := false,
      simpleText := "",
      detailText := "",
      selectableCount := 5,
      selectedPlace := None,
      searchedPlaces := [],
      pickerItems := [],
      uploadImages := [],
      isDisableMiddleButton := true,
      isSimpleTextError := true,
      isDetailTextError := true,
      uploadImageErrorState := Initial)
  }
}
