/**
 * FilterViewController: previews an image under one of four filter presets
 * chosen with four exclusive buttons, at an intensity set with a slider, and
 * confirms the filtered image. The image view records each filter applied to
 * it; the filtering itself, the pushed confirm screen and its completion
 * are outside the model.
 */
module FilterViewController {
  import opened Wrappers
  import opened Platform

  /** ImageFilterPreset. */
  datatype ImageFilterPreset = Original | BlackAndWhite | EnhanceColor | EnhanceExposure | GrayScale

  /** The sender of a button action: one of the four filter buttons, or any other button. */
  datatype Button = GrayFilter | ColorFilter | ExposureFilter | BwFilter | OtherButton

  /** The intensity the slider starts from. */
  const DefaultIntensity: real := 0.3

  /** The button-to-preset dictionary of applyFilter(sender:). */
  function PresetFor(sender: Button): (p: Option<ImageFilterPreset>)
    ensures p.None? <==> sender == OtherButton
    ensures p != Some(Original)
  {
    match sender
    case GrayFilter => Some(GrayScale)
    case BwFilter => Some(BlackAndWhite)
    case ExposureFilter => Some(EnhanceExposure)
    case ColorFilter => Some(EnhanceColor)
    case OtherButton => None
  }

  /** Different filter buttons choose different presets. */
  lemma PresetForInjective(b1: Button, b2: Button)
    requires PresetFor(b1).Some? && PresetFor(b1) == PresetFor(b2)
    ensures b1 == b2
  {
  }

  /** Every preset other than Original has a button choosing it. */
  lemma EveryPresetHasButton(p: ImageFilterPreset)
    requires p != Original
    ensures exists b :: PresetFor(b) == Some(p)
  {
    match p
    case GrayScale => assert PresetFor(GrayFilter) == Some(p);
    case BlackAndWhite => assert PresetFor(BwFilter) == Some(p);
    case EnhanceExposure => assert PresetFor(ExposureFilter) == Some(p);
    case EnhanceColor => assert PresetFor(ColorFilter) == Some(p);
  }

  class FilterViewController {
    const image: Option<Image>
    const asset: Option<Asset>
    /** imageView.image */
    var imageViewImage: Option<Image>
    var filterType: ImageFilterPreset
    var filterIntensity: real
    /** The buttons whose isSelected is set. */
    var selectedButtons: set<Button>
    var sliderEnabled: bool
    /** Each applyFilter(with:intensity:) call on the image view: preset and intensity, in order. */
    var applied: seq<(ImageFilterPreset, real)>
    /** The filtered image and the asset each confirm screen pushed is given, in order. */
    var pushed: seq<(Image, Option<Asset>)>

    /**
     * init(_:_:). The stored properties start from their declared values,
     * which runs no property observer; the rest comes from the nib.
     */
    constructor (image: Option<Image>, asset: Option<Asset>, sliderEnabled: bool)
      ensures this.image == image && this.asset == asset && this.sliderEnabled == sliderEnabled
      ensures filterType == Original && filterIntensity == DefaultIntensity
      ensures imageViewImage.None? && selectedButtons == {} && applied == [] && pushed == []
    {
      this.image := image;
      this.asset := asset;
      this.sliderEnabled := sliderEnabled;
      imageViewImage := None;
      filterType := Original;
      filterIntensity := DefaultIntensity;
      selectedButtons := {};
      applied := [];
      pushed := [];
    }

    /** viewDidLoad(): the image view shows the image. */
    method ViewDidLoad()
      modifies this`imageViewImage
      ensures imageViewImage == image
    {
      imageViewImage := image;
    }

    /** apply(): the image view is filtered with the current preset and intensity. */
    method Apply()
      modifies this`applied
      ensures applied == old(applied) + [(filterType, filterIntensity)]
    {
      applied := applied + [(filterType, filterIntensity)];
    }

    /** The filterType setter: the didSet observer re-applies the filter, even for an unchanged value. */
    method SetFilterType(t: ImageFilterPreset)
      modifies this`filterType, this`applied
      ensures filterType == t
      ensures applied == old(applied) + [(t, filterIntensity)]
    {
      filterType := t;
      Apply();
    }

    /** The filterIntensity setter: the didSet observer re-applies the filter, even for an unchanged value. */
    method SetFilterIntensity(v: real)
      modifies this`filterIntensity, this`applied
      ensures filterIntensity == v
      ensures applied == old(applied) + [(filterType, v)]
    {
      filterIntensity := v;
      Apply();
    }

    /** filterIntensityChanged(_:): the slider's value becomes the intensity, which re-applies the filter. */
    method FilterIntensityChanged(sliderValue: real)
      modifies this`filterIntensity, this`applied
      ensures filterIntensity == sliderValue
      ensures applied == old(applied) + [(filterType, sliderValue)]
    {
      SetFilterIntensity(sliderValue);
    }

    /**
     * applyFilter(sender:): a filter button becomes the only selected one of
     * the four, enables the slider and sets its preset, which re-applies the
     * filter; any other sender changes nothing.
     */
    method ApplyFilter(sender: Button)
      modifies this`selectedButtons, this`sliderEnabled, this`filterType, this`applied
      ensures PresetFor(sender).None? ==>
        selectedButtons == old(selectedButtons) && sliderEnabled == old(sliderEnabled)
        && filterType == old(filterType) && applied == old(applied)
      ensures PresetFor(sender).Some? ==>
        selectedButtons == old(selectedButtons) - {GrayFilter, ColorFilter, ExposureFilter, BwFilter} + {sender}
        && sliderEnabled && filterType == PresetFor(sender).value
        && applied == old(applied) + [(filterType, filterIntensity)]
    {
      var filter := PresetFor(sender);
      if filter.None? {
        return;
      }
      selectedButtons := selectedButtons - {GrayFilter, ColorFilter, ExposureFilter, BwFilter};
      selectedButtons := selectedButtons + {sender};
      sliderEnabled := true;
      SetFilterType(filter.value);
    }

    /**
     * confirmPhoto(): with an image in the image view and a filtered image of
     * it (`filtered`, the result of withFilterPreset(_:intensity:) at the
     * current preset and intensity), pushes a confirm screen for the filtered
     * image and the asset; otherwise nothing.
     */
    method ConfirmPhoto(filtered: Option<Image>)
      modifies this`pushed
      ensures imageViewImage.None? || filtered.None? ==> pushed == old(pushed)
      ensures imageViewImage.Some? && filtered.Some? ==> pushed == old(pushed) + [(filtered.value, asset)]
    {
      if imageViewImage.None? || filtered.None? {
        return;
      }
      pushed := pushed + [(filtered.value, asset)];
    }
  }

  /** Of the four filter buttons, exactly the pressed one is selected after applyFilter(sender:). */
  lemma ExclusiveSelection(before: set<Button>, sender: Button, b: Button)
    requires PresetFor(sender).Some? && PresetFor(b).Some?
    ensures b in before - {GrayFilter, ColorFilter, ExposureFilter, BwFilter} + {sender} <==> b == sender
  {
  }
}
