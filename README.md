# ALCameraViewController, modelled in Dafny

ALCameraViewController is an iOS camera and photo-library picker. The user
takes a photo, or picks one from the library. The photo can then be cropped
and confirmed, either with a rectangular crop overlay or with a
quadrilateral editor that can snap to a detected document.

This project models the parts of the component that compute something:

- the geometry and orientation helpers;
- the crop overlay's drag arithmetic and line layout;
- the quadrilateral editor's anchor hit-testing and clamping;
- the camera view's flash cycle, zoom clamp and camera switch;
- the zoom, inset, centring and crop-rectangle arithmetic of the three confirm and crop screens;
- the selection rules of the photo-library grid and the filter screen;
- the photo-library authorization state machines and the single-image fetch builder.

How the Swift is represented:

- `CGFloat` is `real`.
- Enumerations are datatypes.
- Views whose properties the source writes are classes with those properties as fields.
- Each callback is a boolean field, saying whether the closure is set, and a sequence field logging the values delivered to it, in order and synchronously.
- Anything the platform decides is a parameter: device lock success, the capture devices, the rectangle detector's feature, the perspective-corrected and filtered images, the image manager's reply, the authorization statuses and the user's answer, the library's assets, and the screen scale.

Modules follow the source files one to one:

- `Geometry`, `Wrappers` and `Platform` hold the CoreGraphics, Swift and UIKit/Photos value types.
- `PointExtensions`, `RectExtensions`, `Utilities`, `ImageExtensions` and `ALImageExtensions` cover the utility files.
- `CameraView`, `CropOverlay` and `OverlayView` cover the views.
- `ScrollLayout` holds the scroll-view arithmetic that the three confirm and crop screens repeat.
- `ConfirmViewController`, `CropViewController`, `ALConfirmViewController`, `PhotoLibraryViewController` and `FilterViewController` cover the view controllers.
- `ALImageFetchingInteractor`, `PhotoLibraryAuthorizer` and `SingleImageFetcher` cover the library access.

## Model

| member | source | states |
|---|---|---|
| Geometry.InsetBy | ALCameraViewController/Views/OverlayView.swift:193-198 | growing a rectangle by -dx, -dy moves each standardized edge out by that amount (the `insetBy` used by `anchor`) |
| Geometry.TranslatedByApply | ALCameraViewController/Utilities/CGPointExtensions.swift:28-40 | a `translatedBy` transform moves the point first and then applies the receiver |
| PointExtensions.Translate | ALCameraViewController/Utilities/CGPointExtensions.swift:12-14 | the result differs from the point by exactly (dx, dy) |
| PointExtensions.TranslateZero | ALCameraViewController/Utilities/CGPointExtensions.swift:12-14 | translating by (0, 0) is the identity |
| PointExtensions.TranslateCompose | ALCameraViewController/Utilities/CGPointExtensions.swift:12-14 | translating by a and then by b is translating by a + b |
| PointExtensions.FlipTransformEntries | ALCameraViewController/Utilities/CGPointExtensions.swift:28-33 | the flip's matrix keeps x, negates y and shifts it by the height |
| PointExtensions.CgPointIn | ALCameraViewController/Utilities/CGPointExtensions.swift:28-33 | (x, y) maps to (x, height - y) |
| PointExtensions.CiPointIn | ALCameraViewController/Utilities/CGPointExtensions.swift:35-40 | (x, y) maps to (x, height - y) |
| PointExtensions.FlipRoundTrip | ALCameraViewController/Utilities/CGPointExtensions.swift:28-40 | `ciPointIn` after `cgPointIn` is the identity, and the other way round too |
| PointExtensions.FlipSelfInverse | ALCameraViewController/Utilities/CGPointExtensions.swift:28-40 | each flip undoes itself, and neither changes x |
| RectExtensions.TopLeft | ALCameraViewController/Utilities/CGRectExtensions.swift:12-14 | the top-left corner is the origin |
| RectExtensions.TopRight | ALCameraViewController/Utilities/CGRectExtensions.swift:15-17 | the origin moved by (w, 0) |
| RectExtensions.BottomLeft | ALCameraViewController/Utilities/CGRectExtensions.swift:18-20 | the origin moved by (0, h) |
| RectExtensions.BottomRight | ALCameraViewController/Utilities/CGRectExtensions.swift:21-23 | the origin moved by (w, h) |
| RectExtensions.Center | ALCameraViewController/Utilities/CGRectExtensions.swift:24-26 | the centre lies half the width and half the height from the origin |
| RectExtensions.Bounds | ALCameraViewController/Utilities/CGRectExtensions.swift:27-29 | the result has zero origin and the same size |
| RectExtensions.RectWithCenter | ALCameraViewController/Utilities/CGRectExtensions.swift:30-32 | the rectangle has the given size and its centre is the given point |
| RectExtensions.CenterRoundTrip | ALCameraViewController/Utilities/CGRectExtensions.swift:24-32 | `CGRect(center: c, size: s)` has centre c and size s |
| RectExtensions.RectFromOwnCenter | ALCameraViewController/Utilities/CGRectExtensions.swift:24-32 | rebuilding a rectangle from its own centre and size gives it back |
| RectExtensions.CornerRelations | ALCameraViewController/Utilities/CGRectExtensions.swift:12-26 | top corners share y, left corners share x, bottom-right minus top-left is (w, h), and the centre is half-way |
| Utilities.CurrentRotation | ALCameraViewController/Utilities/Utilities.swift:25-37 | 90 exactly for landscape-left, 270 exactly for landscape-right, 180 exactly for upside-down, 0 otherwise; always one of the four |
| Utilities.ErrorWithKey | ALCameraViewController/Utilities/Utilities.swift:46-51 | code 0, the given domain, the given key |
| Utilities.Unmirrored | ALCameraViewController/Utilities/Utilities.swift:63-70 | never mirrored, equally sideways, and the identity on unmirrored orientations |
| Utilities.NormalizedRect | ALCameraViewController/Utilities/Utilities.swift:53-75 | up and down keep the standardized width and height, left and right swap them, so the area is always kept |
| Utilities.NormalizedUpIsIdentity | ALCameraViewController/Utilities/Utilities.swift:63-64 | up and up-mirrored return a rectangle with non-negative sides unchanged |
| Utilities.NormalizedIgnoresMirroring | ALCameraViewController/Utilities/Utilities.swift:63-70 | every mirrored orientation maps exactly like its unmirrored counterpart |
| Utilities.NormalizedInverses | ALCameraViewController/Utilities/Utilities.swift:65-70 | for a rectangle with non-negative sides, down twice is the identity, and left and right undo each other |
| Utilities.NormalizedStaysInUnitSquare | ALCameraViewController/Utilities/Utilities.swift:53-75 | a rectangle inside the unit square stays inside it for all eight orientations |
| ImageExtensions.Crop | ALCameraViewController/Utilities/ImageExtensions.swift:12-26 | a zero-origin frame of the image's size returns the receiver; any other frame draws the image, shifted by minus the origin, into an up-oriented scale-1 image of the frame's size |
| ImageExtensions.FrontCameraOrientation | ALCameraViewController/Utilities/ImageExtensions.swift:29-47 | always flips the mirrored flag and keeps sideways-ness |
| ImageExtensions.FrontCameraOrientationInvolution | ALCameraViewController/Utilities/ImageExtensions.swift:29-47 | the table applied twice is the identity |
| ImageExtensions.FrontCameraOrientationInjective | ALCameraViewController/Utilities/ImageExtensions.swift:29-47 | different orientations map to different ones, so the table is a bijection |
| ImageExtensions.FixFrontCameraOrientation | ALCameraViewController/Utilities/ImageExtensions.swift:28-48 | same bitmap, scale and size; the orientation is the table's, so the mirrored flag flips |
| ImageExtensions.FixFrontCameraOrientationTwice | ALCameraViewController/Utilities/ImageExtensions.swift:28-48 | fixing twice gives the original image |
| ALImageExtensions.ScaledCropRect | ALCameraViewController/Utilities/ALImageExtensions.swift:14-18 | origin x, origin y, width and height are each multiplied by the screen scale |
| ALImageExtensions.ScaledCropRectUnitScale | ALCameraViewController/Utilities/ALImageExtensions.swift:14-18 | at screen scale 1 the rectangle is the frame itself |
| ALImageExtensions.Crop | ALCameraViewController/Utilities/ALImageExtensions.swift:12-28 | the result has the scaled frame's size and the screen's scale, is up-oriented, and draws the receiver shifted by minus the scaled origin and scaled by scale times the screen scale |
| ALImageExtensions.FrontCameraOrientation | ALCameraViewController/Utilities/ALImageExtensions.swift:31-49 | always flips the mirrored flag |
| ALImageExtensions.SameTableAsImageExtensions | ALCameraViewController/Utilities/ALImageExtensions.swift:31-49 | this copy of the table agrees with the one in ImageExtensions.swift on every orientation |
| ALImageExtensions.FixFrontCameraOrientation | ALCameraViewController/Utilities/ALImageExtensions.swift:30-50 | same bitmap, scale and size, with the mirrored flag flipped |
| ALImageExtensions.FixFrontCameraOrientationTwice | ALCameraViewController/Utilities/ALImageExtensions.swift:30-50 | fixing twice gives the original image |
| CameraView.NextFlashMode | ALCameraViewController/Views/CameraView.swift:239-245 | on goes to off, off to auto, auto to on; the mode always changes |
| CameraView.FlashCycleHasPeriodThree | ALCameraViewController/Views/CameraView.swift:239-245 | three steps restore the mode and two never do |
| CameraView.MinMaxZoom | ALCameraViewController/Views/CameraView.swift:149-151 | at most 3 and at most the device maximum; at least 1 when the device maximum is; unchanged when already in range |
| CameraView.MinMaxZoomIdempotent | ALCameraViewController/Views/CameraView.swift:149-151 | clamping a clamped factor changes nothing |
| CameraView.CameraWithPosition | ALCameraViewController/Views/CameraView.swift:182-187 | the first device at the position, or nil exactly when no device is there |
| CameraView.CameraView.constructor | ALCameraViewController/Views/CameraView.swift:24-28 | no session, input or device; the last zoom factor is 1; the position is the default one |
| CameraView.CameraView.CycleFlash | ALCameraViewController/Views/CameraView.swift:233-248 | steps the flash mode of a device that has a flash and can be locked; otherwise nothing changes |
| CameraView.CameraView.UpdateZoom | ALCameraViewController/Views/CameraView.swift:153-161 | writes the zoom factor when the device can be locked |
| CameraView.CameraView.Pinch | ALCameraViewController/Views/CameraView.swift:145-172 | began and changed apply the clamped product and keep the last factor; ended stores and applies it; other states and a missing device change nothing; the factor stays within [1, 3] |
| CameraView.CameraView.SwapCameraInput | ALCameraViewController/Views/CameraView.swift:251-274 | without a session or an input nothing changes; otherwise back becomes front and anything else becomes back, and the new position is kept even when no input can be made and the configuration stays open |
| CropOverlay.OuterLineFrame | ALCameraViewController/Views/CropOverlay.swift:46-68 | lines 0 to 3 are the top, right, bottom and left strips, one line wide, spanning their side |
| CropOverlay.CornerLayout | ALCameraViewController/Views/CropOverlay.swift:70-104 | corner lines and buttons have their fixed sizes; the top-left ones sit at the origin, the top-right ones end at (width, 0), the bottom-left ones start at (0, height) and the bottom-right ones end at the far corner |
| CropOverlay.GridEvenlySpaced | ALCameraViewController/Views/CropOverlay.swift:106-119 | every gap, the first and last included, equals (length - n * thickness) / (n + 1) |
| CropOverlay.PanGestureRecognizer.constructor | ALCameraViewController/Views/CropOverlay.swift:158-161 | records the view, state and translation of the pan |
| CropOverlay.CornerDragFrame | ALCameraViewController/Views/CropOverlay.swift:166-175 | the dragged corner moves by the translation and the opposite corner stays fixed; a button that is not a corner button gives the zero rectangle |
| CropOverlay.CornerDragAdditive | ALCameraViewController/Views/CropOverlay.swift:160-181 | two corner drags equal one drag by the summed translation |
| CropOverlay.OverlayDragFrame | ALCameraViewController/Views/CropOverlay.swift:183-189 | the centre moves by the translation and the size is unchanged |
| CropOverlay.OverlayDragAdditive | ALCameraViewController/Views/CropOverlay.swift:183-189 | two overlay drags equal one drag by the summed translation |
| CropOverlay.CropOverlay.constructor | ALCameraViewController/Views/CropOverlay.swift:34-37 | the overlay is created with its line and button counts |
| CropOverlay.CropOverlay.CreateLines | ALCameraViewController/Views/CropOverlay.swift:123-134 | 4 outer lines, 2 horizontal, 2 vertical, 2 per corner and 4 corner buttons, every one starting at the zero frame |
| CropOverlay.CropOverlay.SetCornerLines | ALCameraViewController/Views/CropOverlay.swift:101-102 | writes the two line frames of one corner and nothing else |
| CropOverlay.CropOverlay.LayoutSubviews | ALCameraViewController/Views/CropOverlay.swift:44-121 | every line and button gets the frame computed from the bounds, with grid lines one pixel thick |
| CropOverlay.CropOverlay.MoveCropOverlay | ALCameraViewController/Views/CropOverlay.swift:158-190 | only began and changed act; a corner drag resizes and lays out again; an overlay drag moves the overlay and leaves every line and button as it was; the translation is reset to zero; any other state changes nothing |
| OverlayView.WithCentre | ALCameraViewController/Views/OverlayView.swift:177-183 | sets the chosen anchor's centre and keeps the other three |
| OverlayView.HitIsSquareAroundCentre | ALCameraViewController/Views/OverlayView.swift:193-198 | a touch picks up an anchor exactly within 44 points of its centre (the 28-point frame grown by 30), right and bottom edges excluded |
| OverlayView.FirstHit | ALCameraViewController/Views/OverlayView.swift:193-198 | `first(where:)`: nil exactly when no anchor is hit; otherwise a hit anchor with no hit before it |
| OverlayView.Anchor | ALCameraViewController/Views/OverlayView.swift:193-198 | top-left if hit, else top-right, else bottom-left, else bottom-right, each as an if-and-only-if; nil exactly when none is hit |
| OverlayView.ClampToBounds | ALCameraViewController/Views/OverlayView.swift:178-182 | the result lies within the bounds' extent, and a coordinate already inside is kept |
| OverlayView.InsetCentres | ALCameraViewController/Views/OverlayView.swift:98-104 | each centre is its bounds corner moved inward by the insets |
| OverlayView.ZeroInsetsGiveCorners | ALCameraViewController/Views/OverlayView.swift:98-104 | zero insets put the anchors exactly on the corners |
| OverlayView.FeaturePoint | ALCameraViewController/Views/OverlayView.swift:106-114 | a detected corner (x, y) lands at (x * W / iw, (ih - y) * H / ih) |
| OverlayView.PanViewGestureRecognizer.constructor | ALCameraViewController/Views/OverlayView.swift:202-204 | a pan starts with no attached anchor |
| OverlayView.OverlayView.SetCentres | ALCameraViewController/Views/OverlayView.swift:98-114 | the four anchor centres become the given ones |
| OverlayView.OverlayView.constructor | ALCameraViewController/Views/OverlayView.swift:48-76 | the anchors start on the corners of the bounds |
| OverlayView.OverlayView.LayoutButtons | ALCameraViewController/Views/OverlayView.swift:98-104 | the anchors are at the inset corners |
| OverlayView.OverlayView.LayoutButtonsToFeature | ALCameraViewController/Views/OverlayView.swift:106-114 | each anchor is at its detected corner, flipped and scaled into the view |
| OverlayView.OverlayView.ParentPan | ALCameraViewController/Views/OverlayView.swift:171-191 | began attaches the anchor under the touch; changed moves the attached anchor to the clamped touch, so it stays within the bounds, and without one changes nothing; every other state detaches |
| ScrollLayout.FitScale | ALCameraViewController/ViewController/ConfirmViewController.swift:158-165 | the smaller of the two per-axis ratios |
| ScrollLayout.FillScale | ALCameraViewController/ViewController/ConfirmViewController.swift:158-165 | the larger of the two per-axis ratios |
| ScrollLayout.FitScaleFits | ALCameraViewController/ViewController/ConfirmViewController.swift:145-168 | at the fit scale the image fits the bound on both axes and fills it on one |
| ScrollLayout.FillScaleCovers | ALCameraViewController/ViewController/ConfirmViewController.swift:145-168 | at the fill scale the image covers the bound on both axes and matches it on one |
| ScrollLayout.ScrollViewInsets | ALCameraViewController/ViewController/ConfirmViewController.swift:170-175 | top and left are the frame's origin, and the insets with the frame add up to the container |
| ScrollLayout.CentredOrigin | ALCameraViewController/ViewController/ConfirmViewController.swift:189-203 | per axis, a smaller image gets equal margins on both sides and a larger one origin 0; never negative |
| ScrollLayout.RotateContentOffset | ALCameraViewController/ViewController/ConfirmViewController.swift:177-187 | the image's centre ends up at the centre of the inset crop area |
| ScrollLayout.ProportionalCropRect | ALCameraViewController/ViewController/CropViewController.swift:353-365 | multiplied back by the image view's width and height, the result is the crop frame shifted by the content offset |
| ScrollLayout.ProportionalCropRectInUnitSquare | ALCameraViewController/ViewController/ConfirmViewController.swift:229-240 | a crop frame that lies within the image view once scrolled gives a rectangle inside the unit square |
| ConfirmViewController.ConfirmViewController.constructor | ALCameraViewController/ViewController/ConfirmViewController.swift:30-35 | the screen keeps the asset and the cropping flag and shows no image yet |
| ConfirmViewController.ConfirmViewController.CalculateMinimumScale | ALCameraViewController/ViewController/ConfirmViewController.swift:145-168 | 1 without an image; when cropping, the fill scale over the crop overlay, so the image covers it; otherwise the fit scale, so the image fits |
| ConfirmViewController.ConfirmViewController.CalculateScrollViewInsets | ALCameraViewController/ViewController/ConfirmViewController.swift:170-175 | top + frame height + bottom is the view's height, and likewise for the width |
| ConfirmViewController.ConfirmViewController.CenterScrollViewContents | ALCameraViewController/ViewController/ConfirmViewController.swift:189-203 | the image view moves to the centred origin in the crop overlay or scroll view and keeps its size |
| ConfirmViewController.ConfirmViewController.CenterImageViewOnRotate | ALCameraViewController/ViewController/ConfirmViewController.swift:177-187 | changes nothing unless cropping; when cropping, centres the image on the crop overlay |
| ConfirmViewController.ConfirmViewController.Cancel | ALCameraViewController/ViewController/ConfirmViewController.swift:210-212 | the completion receives nil |
| ConfirmViewController.ConfirmViewController.ConfirmCropRect | ALCameraViewController/ViewController/ConfirmViewController.swift:229-244 | the overlay frame shifted by the content offset, divided by the image view's size, passed through `normalizedRect`; inside the unit square when the overlay lies over the image |
| ConfirmViewController.ConfirmViewController.ConfirmPhoto | ALCameraViewController/ViewController/ConfirmViewController.swift:214-247 | hides the image view, starts the spinner and builds a fetcher for the asset with both callbacks; it has a crop rectangle only when cropping |
| CropViewController.FixOrientation | ALCameraViewController/ViewController/CropViewController.swift:408-419 | an up image is returned as it is; otherwise it is redrawn upright when a context image comes back |
| CropViewController.FixOrientationIdempotent | ALCameraViewController/ViewController/CropViewController.swift:408-419 | a redrawn image is up, so fixing it again returns it unchanged |
| CropViewController.CropViewController.constructor | ALCameraViewController/ViewController/CropViewController.swift:30-42 | the screen keeps the asset, the cropping flag and the overlay, and shows no image yet |
| CropViewController.CropViewController.CalculateMinimumScale | ALCameraViewController/ViewController/CropViewController.swift:163-186 | 1 without an image, otherwise the fit scale even when cropping, so the image fits |
| CropViewController.CropViewController.CalculateScrollViewInsets | ALCameraViewController/ViewController/CropViewController.swift:188-193 | the insets and the frame add up to the scroll view's height and width |
| CropViewController.CropViewController.CenterScrollViewContents | ALCameraViewController/ViewController/CropViewController.swift:209-225 | the image view moves to the origin that centres it in the scroll view |
| CropViewController.CropViewController.CenterImageViewOnRotate | ALCameraViewController/ViewController/CropViewController.swift:195-207 | changes nothing unless cropping; when cropping, centres the image in the scroll view |
| CropViewController.CropViewController.ButtonActions | ALCameraViewController/ViewController/CropViewController.swift:234-238 | the border button starts out detecting borders |
| CropViewController.CropViewController.DetectBorders | ALCameraViewController/ViewController/CropViewController.swift:240-249 | anchors go to the detected rectangle if one is found; the button becomes "Select All" with the select-all action |
| CropViewController.CropViewController.SelectAllBorders | ALCameraViewController/ViewController/CropViewController.swift:251-256 | anchors go back to the overlay's corners; the button becomes "Find Borders" with the detect action |
| CropViewController.CropViewController.PressBorderButton | ALCameraViewController/ViewController/CropViewController.swift:240-256 | the button alternates between its two title and action states; a detect press puts the anchors on the detected corners or leaves them when nothing is found, a select-all press puts them on the bounds' corners, and with no action nothing changes |
| CropViewController.CropViewController.Cancel | ALCameraViewController/ViewController/CropViewController.swift:258-260 | the completion receives nil and nil |
| CropViewController.CropViewController.ConfirmPhoto | ALCameraViewController/ViewController/CropViewController.swift:262-309 | nothing without an image; when cropping, the perspective crop goes to a pushed confirm screen; otherwise the completion receives the unchanged image and the asset |
| CropViewController.CropViewController.MakeProportionalCropRect | ALCameraViewController/ViewController/CropViewController.swift:353-365 | the shifted overlay origin and size divided by the image view's width and height |
| ALConfirmViewController.ALConfirmViewController.constructor | ALCameraViewController/ViewController/ALConfirmViewController.swift:32-37 | the image is stored, but the image view stays empty because no observer runs in the initializer |
| ALConfirmViewController.ALConfirmViewController.ShowImage | ALCameraViewController/ViewController/ALConfirmViewController.swift:64-65 | the image view shows the image, sized to fit |
| ALConfirmViewController.ALConfirmViewController.SetImage | ALCameraViewController/ViewController/ALConfirmViewController.swift:20-25 | setting the image puts it into the image view, sized to fit |
| ALConfirmViewController.ALConfirmViewController.ViewDidLoad | ALCameraViewController/ViewController/ALConfirmViewController.swift:59-78 | the image view shows the image; the crop overlay is hidden exactly when not cropping |
| ALConfirmViewController.ALConfirmViewController.CalculateMinimumScale | ALCameraViewController/ViewController/ALConfirmViewController.swift:105-124 | fmax of the ratios over the crop overlay when cropping, so the image covers it; fmin over the view otherwise, so it fits |
| ALConfirmViewController.ALConfirmViewController.CalculateScrollViewInsets | ALCameraViewController/ViewController/ALConfirmViewController.swift:126-132 | the insets and the frame add up to the view's height and width |
| ALConfirmViewController.ALConfirmViewController.CenterScrollViewContents | ALCameraViewController/ViewController/ALConfirmViewController.swift:146-160 | the image view moves to the centred origin and keeps its size |
| ALConfirmViewController.ALConfirmViewController.CenterImageViewOnRotate | ALCameraViewController/ViewController/ALConfirmViewController.swift:134-144 | changes nothing unless cropping; when cropping, centres the image on the crop overlay |
| ALConfirmViewController.ALConfirmViewController.Cancel | ALCameraViewController/ViewController/ALConfirmViewController.swift:167-169 | the completion receives nil |
| ALConfirmViewController.ALConfirmViewController.CropFrame | ALCameraViewController/ViewController/ALConfirmViewController.swift:174-176 | the overlay's frame moved by the content offset, with the same size |
| ALConfirmViewController.ALConfirmViewController.ConfirmPhoto | ALCameraViewController/ViewController/ALConfirmViewController.swift:171-186 | without cropping, the completion receives the image unchanged; with cropping, the image cropped to the shifted overlay at the current zoom, or nil without an image; the crop is the screen-scaled one of ALImageExtensions.swift |
| PhotoLibraryViewController.Without | ALCameraViewController/ViewController/PhotoLibraryViewController.swift:152-156 | deselecting removes exactly that item, keeps every other selected item and shrinks the selection |
| PhotoLibraryViewController.PhotoLibraryViewController.constructor | ALCameraViewController/ViewController/PhotoLibraryViewController.swift:21-26 | no assets, single selection, no completions |
| PhotoLibraryViewController.PhotoLibraryViewController.OnSuccess | ALCameraViewController/ViewController/PhotoLibraryViewController.swift:95-98 | the fetched assets become the grid's contents |
| PhotoLibraryViewController.PhotoLibraryViewController.NumberOfItemsInSection | ALCameraViewController/ViewController/PhotoLibraryViewController.swift:121-123 | the asset count, or 0 when no assets are loaded |
| PhotoLibraryViewController.PhotoLibraryViewController.ItemAtIndexPath | ALCameraViewController/ViewController/PhotoLibraryViewController.swift:114-116 | nil exactly when no assets are loaded, otherwise the asset at the row |
| PhotoLibraryViewController.PhotoLibraryViewController.ItemsMatchCount | ALCameraViewController/ViewController/PhotoLibraryViewController.swift:114-123 | every row below the reported count has its asset |
| PhotoLibraryViewController.PhotoLibraryViewController.AssetsAtRows | ALCameraViewController/ViewController/PhotoLibraryViewController.swift:90-93 | the asset at each selected row, in order, with missing items dropped, which leaves none before assets are loaded |
| PhotoLibraryViewController.PhotoLibraryViewController.DismissLibrary | ALCameraViewController/ViewController/PhotoLibraryViewController.swift:86-88 | exactly one completion receives nil: the multiple-selection one in multiple mode, the single one otherwise |
| PhotoLibraryViewController.PhotoLibraryViewController.SelectMultiple | ALCameraViewController/ViewController/PhotoLibraryViewController.swift:90-93 | the multiple-selection completion receives the assets at the selected rows |
| PhotoLibraryViewController.PhotoLibraryViewController.DidSelectItemAt | ALCameraViewController/ViewController/PhotoLibraryViewController.swift:140-145 | the item is reported only in single-selection mode |
| PhotoLibraryViewController.PhotoLibraryViewController.ShouldSelectItemAt | ALCameraViewController/ViewController/PhotoLibraryViewController.swift:147-159 | true in single mode; in multiple mode a selected item is deselected and refused, any other is allowed |
| FilterViewController.PresetFor | ALCameraViewController/ViewController/FilterViewController.swift:110-117 | the four filter buttons have presets and no other sender has one; no button maps to Original |
| FilterViewController.PresetForInjective | ALCameraViewController/ViewController/FilterViewController.swift:110-113 | different buttons map to different presets |
| FilterViewController.EveryPresetHasButton | ALCameraViewController/ViewController/FilterViewController.swift:110-113 | every preset except Original has a button |
| FilterViewController.FilterViewController.constructor | ALCameraViewController/ViewController/FilterViewController.swift:25-57 | starts at Original with intensity 0.3, no filter applied and no button selected |
| FilterViewController.FilterViewController.ViewDidLoad | ALCameraViewController/ViewController/FilterViewController.swift:65-69 | the image view shows the image |
| FilterViewController.FilterViewController.Apply | ALCameraViewController/ViewController/FilterViewController.swift:125-127 | the image view is filtered with the current preset and intensity |
| FilterViewController.FilterViewController.SetFilterType | ALCameraViewController/ViewController/FilterViewController.swift:28-32 | every assignment to the preset re-applies the filter |
| FilterViewController.FilterViewController.SetFilterIntensity | ALCameraViewController/ViewController/FilterViewController.swift:33-37 | every assignment to the intensity re-applies the filter |
| FilterViewController.FilterViewController.FilterIntensityChanged | ALCameraViewController/ViewController/FilterViewController.swift:129-131 | the slider writes the intensity, which re-applies the filter |
| FilterViewController.FilterViewController.ApplyFilter | ALCameraViewController/ViewController/FilterViewController.swift:109-123 | a filter button becomes the only selected one, enables the slider and sets its preset; any other sender changes nothing |
| FilterViewController.ExclusiveSelection | ALCameraViewController/ViewController/FilterViewController.swift:119-120 | after a filter button is pressed, exactly that one of the four is selected |
| FilterViewController.FilterViewController.ConfirmPhoto | ALCameraViewController/ViewController/FilterViewController.swift:91-107 | nothing happens without a filtered image; otherwise a confirm screen is pushed for it and the asset |
| ALImageFetchingInteractor.AccessDeniedError | ALCameraViewController/Utilities/ALImageFetchingInteractor.swift:61-69 | domain "com.zero.imageFetcher", code 0, the access-denied key |
| ALImageFetchingInteractor.CopyAssets | ALCameraViewController/Utilities/ALImageFetchingInteractor.swift:51-54 | one entry per fetched asset, in fetch order |
| ALImageFetchingInteractor.Decided | ALCameraViewController/Utilities/ALImageFetchingInteractor.swift:72-86 | a status is granted exactly when it is authorized |
| ALImageFetchingInteractor.ALImageFetchingInteractor.constructor | ALCameraViewController/Utilities/ALImageFetchingInteractor.swift:23-26 | no callbacks set and nothing requested yet |
| ALImageFetchingInteractor.ALImageFetchingInteractor.OnSuccess | ALCameraViewController/Utilities/ALImageFetchingInteractor.swift:31-34 | stores the callback and returns the same interactor |
| ALImageFetchingInteractor.ALImageFetchingInteractor.OnFailure | ALCameraViewController/Utilities/ALImageFetchingInteractor.swift:36-39 | stores the callback and returns the same interactor |
| ALImageFetchingInteractor.ALImageFetchingInteractor.OnAuthorized | ALCameraViewController/Utilities/ALImageFetchingInteractor.swift:46-59 | the success callback receives every library asset, in order |
| ALImageFetchingInteractor.ALImageFetchingInteractor.OnDeniedOrRestricted | ALCameraViewController/Utilities/ALImageFetchingInteractor.swift:61-69 | the failure callback receives the access-denied error |
| ALImageFetchingInteractor.ALImageFetchingInteractor.HandleAuthorization | ALCameraViewController/Utilities/ALImageFetchingInteractor.swift:71-88 | an undetermined status asks once and sets the flag; undetermined after that fails; authorized leads only to success; denied and restricted lead only to failure; at most one request is ever made |
| ALImageFetchingInteractor.ALImageFetchingInteractor.Fetch | ALCameraViewController/Utilities/ALImageFetchingInteractor.swift:41-44 | handles the current status and returns the same interactor |
| PhotoLibraryAuthorizer.DeniedError | ALCameraViewController/Utilities/PhotoLibraryAuthorizer.swift:25-28 | a non-nil error in domain "com.zero.imageFetcher" with code 0 |
| PhotoLibraryAuthorizer.Authorize | ALCameraViewController/Utilities/PhotoLibraryAuthorizer.swift:20-46 | nil arrives exactly when an authorized status follows only undetermined ones; denied and restricted give the access-denied error; it stays pending exactly while every status is undetermined |
| PhotoLibraryAuthorizer.GrantedIffFirstDeterminedIsAuthorized | ALCameraViewController/Utilities/PhotoLibraryAuthorizer.swift:30-46 | the completion gets nil exactly when the first determined status is authorized, and an error otherwise |
| PhotoLibraryAuthorizer.NoRequestLimit | ALCameraViewController/Utilities/PhotoLibraryAuthorizer.swift:32-34 | any number of undetermined statuses before an authorized one still ends in a grant, so there is no request counter |
| SingleImageFetcher.FloorOfFraction | ALCameraViewController/Utilities/SingleImageFetcher.swift:80-81 | the largest whole number not above pixels times fraction |
| SingleImageFetcher.FloorOfFractionWithin | ALCameraViewController/Utilities/SingleImageFetcher.swift:80-81 | for a fraction in [0, 1], the result lies between 0 and the pixel count |
| SingleImageFetcher.CroppedTargetSize | ALCameraViewController/Utilities/SingleImageFetcher.swift:75-84 | each side is the floor of the pixel size times the crop's side |
| SingleImageFetcher.CroppedTargetSizeWithinAsset | ALCameraViewController/Utilities/SingleImageFetcher.swift:75-84 | a crop inside the unit square never asks for more pixels than the asset has, nor for a negative count |
| SingleImageFetcher.SingleImageFetcher.constructor | ALCameraViewController/Utilities/SingleImageFetcher.swift:18-25 | the target size starts at `PHImageManagerMaximumSize`, with no asset, crop or callbacks |
| SingleImageFetcher.SingleImageFetcher.OnSuccess | ALCameraViewController/Utilities/SingleImageFetcher.swift:27-30 | stores the callback and returns the same fetcher |
| SingleImageFetcher.SingleImageFetcher.OnFailure | ALCameraViewController/Utilities/SingleImageFetcher.swift:32-35 | stores the callback and returns the same fetcher |
| SingleImageFetcher.SingleImageFetcher.SetAsset | ALCameraViewController/Utilities/SingleImageFetcher.swift:37-40 | sets only the asset and returns the same fetcher |
| SingleImageFetcher.SingleImageFetcher.SetTargetSize | ALCameraViewController/Utilities/SingleImageFetcher.swift:42-45 | sets only the target size and returns the same fetcher |
| SingleImageFetcher.SingleImageFetcher.SetCropRect | ALCameraViewController/Utilities/SingleImageFetcher.swift:47-50 | sets only the crop rectangle and returns the same fetcher |
| SingleImageFetcher.SingleImageFetcher.Fail | ALCameraViewController/Utilities/SingleImageFetcher.swift:57-58 | the failure callback receives the error |
| SingleImageFetcher.SingleImageFetcher.Fetch | ALCameraViewController/Utilities/SingleImageFetcher.swift:52-61 | an authorizer error goes to failure without any request; while no status is determined nothing happens; a grant runs `_fetch` |
| SingleImageFetcher.SingleImageFetcher.PerformFetch | ALCameraViewController/Utilities/SingleImageFetcher.swift:63-94 | no asset fails with the can't-fetch-photo error; a crop rectangle sets the floored target size and exact resize; a nil image fails and an image succeeds |

## Left out

- Division by zero: FitScale, FillScale, every CalculateMinimumScale, ProportionalCropRect, ConfirmCropRect, MakeProportionalCropRect, FeaturePoint, LayoutButtonsToFeature, DetectBorders and PressBorderButton require nonzero divisors. `CGFloat` division by zero gives infinity or NaN, and IEEE arithmetic is not modelled.
- ALConfirmViewController.ALConfirmViewController.CalculateMinimumScale requires an image, because the source force-unwraps it.
- Floating point: `CGFloat` and the filter intensity's `Float` are exact reals. Rounding is not modelled.
- Callbacks are delivered synchronously into logs. The `DispatchQueue.main.async` hops and the asynchronous `requestAuthorization` and `requestImage` replies are not modelled as concurrency.
- PhotoLibraryAuthorizer.Authorize takes the statuses as a finite sequence: the current one, then the answer to each request. When the answers run out the outcome is `Pending`.
- ALImageFetchingInteractor.ALImageFetchingInteractor.HandleAuthorization takes the user's answer to the one request as a parameter.
- ALImageFetchingInteractor.ALImageFetchingInteractor.OnAuthorized takes the library's assets as a parameter. The `PHAsset.fetchAssets` call is not modelled.
- SingleImageFetcher.SingleImageFetcher.PerformFetch does not model these request options: high-quality delivery, network access and the aspect-fill content mode.
- The image manager's reply is a parameter.
- `viewWillLayoutSubviews` and `willAnimateRotation` only chain the inset, scale and centring functions, so they are not modelled separately. The scroll view's zooming, which resizes the image view, belongs to UIKit and is not modelled.
- `OverlayView.detectBorders` (CoreImage rectangle detection) and `OverlayView.cropImage` (perspective correction) are left out. The detected feature and the corrected image are parameters of DetectBorders and CropViewController.ConfirmPhoto.
- The crop screen's `UIImage.crop(rect:)` with its rotation transforms, `configureWithImage`, the asset fetch in `viewDidLoad` and the completion wiring in `startConfimController` are left out. CropViewController.ConfirmPhoto records the pushed image instead.
- ConfirmViewController.ConfirmViewController.ConfirmPhoto returns the configured fetcher. The success and failure closures that hand its result to `onComplete` are not modelled.
- ConfirmViewController.ConfirmViewController.ConfirmPhoto does not call `fetcher.fetch()` (ConfirmViewController.swift:246); the caller runs SingleImageFetcher.SingleImageFetcher.Fetch on the returned fetcher.
- ConfirmViewController.ConfirmViewController.ConfirmCropRect and ConfirmPhoto (when cropping) require an image, because the source force-unwraps `imageView.image!` at ConfirmViewController.swift:241.
- FilterViewController.FilterViewController.ConfirmPhoto takes the filtered image as a parameter. The filter implementations live in Objective-C headers whose bodies are not part of this model.
- The completion the filter screen's pushed confirm screen calls back is not modelled.
- The back button's navigation pop is not modelled.
- CropViewController.CropViewController.ConfirmPhoto and FilterViewController.FilterViewController.ConfirmPhoto always record the push. In the source `navigationController?.pushViewController` (CropViewController.swift:379, FilterViewController.swift:106) pushes nothing when the screen has no navigation controller; that case is not modelled.
- PhotoLibraryViewController.PhotoLibraryViewController.SelectMultiple treats `indexPathsForSelectedItems` as always present, so the result is never nil.
- UIKit's own update of the selection after `shouldSelectItemAt` returns true is not modelled.
- Cell configuration in `willDisplay` is not modelled.
- The `ImageFetcher` run in `viewDidLoad` and the permissions view shown on failure are not modelled.
- CameraView: session set-up, capture, focus and button rotation are left out, being device and queue plumbing.
- CameraView.CameraView: the capture input's device and `device` are one object in the source. The model keeps two `Device` values, so after CycleFlash or UpdateZoom the copy in `input` keeps the old flash mode and zoom factor. Only its position is ever read, so that aliasing is lost without effect on any contract.
- Whether `lockForConfiguration` succeeds, and whether a capture input can be made, are parameters.
- CropOverlay: the screen scale is a parameter.
- ALConfirmViewController.ALConfirmViewController.ConfirmPhoto crops with the `crop(frame:scale:)` of ALImageExtensions.swift. ImageExtensions.swift:12 and ALUtilities.swift:22 declare the same signature, so the source as written does not say which one the call at ALConfirmViewController.swift:180 reaches. The model takes the one that turns the point-based overlay frame into pixels by the screen scale, because the overlay frame and the content offset are in points. It therefore has no identity shortcut.
- CropViewController.CropViewController: `cropOverlayFrame` and `cropOverlay.bounds` are the frame and the bounds of one view, but the model does not tie their sizes together. MakeProportionalCropRect reads the frame; DetectBorders and SelectAllBorders read the bounds.
- Line colours and subview insertion are not modelled.
- `createLine` and `createButton` are represented only by the frames they give their views.
- Geometry.InsetBy covers growing a rectangle only, which is all `anchor` does. The null rectangle that shrinking past zero gives is not modelled.
- `radians`, `CGPoint.distance` (square root), `largestPhotoSize`, `SpringAnimation` and `LocalizedString` are left out. They are transcendental, screen-bound or animation glue.
- Error descriptions are represented by their localization key.
