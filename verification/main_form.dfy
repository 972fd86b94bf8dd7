/**
 * The main form's animation scene (the ordered, owning list of bouncing
 * shapes, with its capacity guard, its timer tick and its reset) and three
 * small rules beside it: the size of the drawing bitmap, the localised-text
 * lookup with its fallback to the key, and the choice of image format by
 * file extension when saving.
 */
module Forms {
  import opened AnimatedShapes

  /** The most shapes the "add shape" button lets the list hold. */
  const MaxShapes := 20

  /** How many shapes a reset creates. */
  const InitialShapes := 5

  /** The smallest panel side the reset creates shapes for. */
  const MinAnimationSide := 100

  /** The states of a list of shapes, in list order. */
  function StatesOf(shapes: seq<AnimatedShape>): (r: seq<ShapeState>)
    reads shapes
    ensures |r| == |shapes|
    ensures forall i :: 0 <= i < |r| ==> r[i] == shapes[i].State()
  {
    if shapes == [] then [] else [shapes[0].State()] + StatesOf(shapes[1..])
  }

  /** One tick of the whole scene: every shape moved once, in list order, in the same container. */
  function MoveAll(states: seq<ShapeState>, width: int, height: int): (r: seq<ShapeState>)
    ensures |r| == |states|
    ensures forall i :: 0 <= i < |r| ==> r[i] == Moved(states[i], width, height)
  {
    if states == [] then [] else [Moved(states[0], width, height)] + MoveAll(states[1..], width, height)
  }

  /** After a tick every shape that is no larger than the panel lies inside it. */
  lemma MoveAllInside(states: seq<ShapeState>, width: int, height: int)
    requires forall s :: s in states ==> s.size <= width && s.size <= height
    ensures forall s :: s in MoveAll(states, width, height) ==> Inside(s, width, height)
  {
    var moved := MoveAll(states, width, height);
    forall i | 0 <= i < |moved|
      ensures Inside(moved[i], width, height)
    {
      MoveInside(states[i], width, height);
    }
  }

  /** A tick keeps every shape of the scene well formed. */
  lemma MoveAllKeepsWellFormed(states: seq<ShapeState>, width: int, height: int)
    requires forall s :: s in states ==> WellFormed(s)
    ensures forall s :: s in MoveAll(states, width, height) ==> WellFormed(s)
  {
    var moved := MoveAll(states, width, height);
    forall i | 0 <= i < |moved|
      ensures WellFormed(moved[i])
    {
      MoveKeepsWellFormed(states[i], width, height);
    }
  }

  class MainForm {
    /** The animation list; its order is the drawing order. */
    var animatedShapes: seq<AnimatedShape>

    /** The list holds each shape object once, so moving one shape leaves the others alone. */
    ghost predicate Distinct()
      reads this
    {
      forall i, j :: 0 <= i < j < |animatedShapes| ==> animatedShapes[i] != animatedShapes[j]
    }

    function States(): seq<ShapeState>
      reads this, animatedShapes
    {
      StatesOf(animatedShapes)
    }

    /**
     * The scene invariant: distinct shapes, at most `MaxShapes` of them, each
     * with a factory size and factory speeds.
     */
    ghost predicate Valid()
      reads this, animatedShapes
    {
      && Distinct()
      && |animatedShapes| <= MaxShapes
      && forall s :: s in States() ==> WellFormed(s)
    }

    constructor ()
      ensures Valid() && States() == []
    {
      animatedShapes := [];
    }

    /**
     * The "add shape" button: append a new random shape sized for the panel
     * while the list holds fewer than `MaxShapes`; otherwise leave the list
     * alone (`added` is false and the form shows its "maximum reached" message).
     */
    method AddShape(panelWidth: int, panelHeight: int, d: Draws) returns (added: bool)
      requires Valid()
      modifies this
      ensures Valid()
      ensures added <==> |old(States())| < MaxShapes
      ensures added ==> |animatedShapes| == |old(animatedShapes)| + 1 && fresh(animatedShapes[|old(animatedShapes)|])
      ensures |animatedShapes| >= |old(animatedShapes)| && animatedShapes[..|old(animatedShapes)|] == old(animatedShapes)
      ensures !added ==> animatedShapes == old(animatedShapes)
      ensures States() == if added then old(States()) + [RandomShape(panelWidth, panelHeight, d)] else old(States())
    {
      added := |animatedShapes| < MaxShapes;
      if added {
        var shape := AnimatedShape.CreateRandom(panelWidth, panelHeight, d);
        animatedShapes := animatedShapes + [shape];
      }
    }

    /** The timer tick: move every shape once, in list order, within the panel's current size. */
    method AnimationTick(width: int, height: int)
      requires Valid()
      modifies animatedShapes
      ensures Valid()
      ensures animatedShapes == old(animatedShapes)
      ensures States() == MoveAll(old(States()), width, height)
      ensures 55 <= width && 55 <= height ==> forall s :: s in States() ==> Inside(s, width, height)
    {
      var i := 0;
      while i < |animatedShapes|
        invariant 0 <= i <= |animatedShapes|
        invariant forall j :: 0 <= j < i ==>
          animatedShapes[j].State() == Moved(old(animatedShapes[j].State()), width, height)
        invariant forall j :: i <= j < |animatedShapes| ==>
          animatedShapes[j].State() == old(animatedShapes[j].State())
      {
        animatedShapes[i].Move(width, height);
        i := i + 1;
      }
      assert States() == MoveAll(old(States()), width, height);
      MoveAllKeepsWellFormed(old(States()), width, height);
      if 55 <= width && 55 <= height {
        MoveAllInside(old(States()), width, height);
      }
    }

    /**
     * Clear the list and fill it with `InitialShapes` new random shapes sized
     * for the panel's client area, each side raised to at least
     * `MinAnimationSide`; every new shape starts inside that area.
     */
    method InitializeAnimatedShapes(clientWidth: int, clientHeight: int, draws: seq<Draws>)
      requires |draws| == InitialShapes
      modifies this
      ensures Valid()
      ensures |animatedShapes| == InitialShapes
      ensures forall s :: s in animatedShapes ==> fresh(s)
      ensures forall i :: 0 <= i < InitialShapes ==>
        States()[i] == RandomShape(Max(MinAnimationSide, clientWidth), Max(MinAnimationSide, clientHeight), draws[i])
      ensures forall s :: s in States() ==>
        Inside(s, Max(MinAnimationSide, clientWidth), Max(MinAnimationSide, clientHeight))
    {
      animatedShapes := [];
      var animWidth := Max(MinAnimationSide, clientWidth);
      var animHeight := Max(MinAnimationSide, clientHeight);
      for i := 0 to InitialShapes
        invariant |animatedShapes| == i
        invariant forall s :: s in animatedShapes ==> fresh(s)
        invariant Distinct()
        invariant forall j :: 0 <= j < i ==>
          animatedShapes[j].State() == RandomShape(animWidth, animHeight, draws[j])
      {
        var shape := AnimatedShape.CreateRandom(animWidth, animHeight, draws[i]);
        animatedShapes := animatedShapes + [shape];
      }
      forall i | 0 <= i < InitialShapes
        ensures Inside(States()[i], animWidth, animHeight)
      {
        RandomShapeFits(animWidth, animHeight, draws[i]);
      }
    }

    /** The "new" menu item: the scene ends up holding exactly `InitialShapes` new shapes. */
    method NewDocument(clientWidth: int, clientHeight: int, draws: seq<Draws>)
      requires |draws| == InitialShapes
      modifies this
      ensures Valid()
      ensures |animatedShapes| == InitialShapes
      ensures forall s :: s in animatedShapes ==> fresh(s)
      ensures forall i :: 0 <= i < InitialShapes ==>
        States()[i] == RandomShape(Max(MinAnimationSide, clientWidth), Max(MinAnimationSide, clientHeight), draws[i])
    {
      animatedShapes := [];
      InitializeAnimatedShapes(clientWidth, clientHeight, draws);
    }
  }

  // ---------------------------------------------------------------------
  // Drawing bitmap
  // ---------------------------------------------------------------------

  /**
   * The size of the drawing bitmap: the panel's client size with each side
   * raised to at least 10, or 100 by 100 when creating that bitmap fails.
   */
  function DrawingBitmapSize(clientWidth: int, clientHeight: int, allocationFails: bool): (size: (int, int))
    ensures size.0 >= 10 && size.1 >= 10
    ensures allocationFails ==> size == (100, 100)
    ensures !allocationFails ==> size.0 >= clientWidth && size.1 >= clientHeight
    ensures !allocationFails && clientWidth >= 10 ==> size.0 == clientWidth
    ensures !allocationFails && clientWidth < 10 ==> size.0 == 10
    ensures !allocationFails && clientHeight >= 10 ==> size.1 == clientHeight
    ensures !allocationFails && clientHeight < 10 ==> size.1 == 10
  {
    if allocationFails then (100, 100) else (Max(10, clientWidth), Max(10, clientHeight))
  }

  // ---------------------------------------------------------------------
  // Localised text
  // ---------------------------------------------------------------------

  datatype Option<T> = None | Some(value: T)

  /**
   * The text for `key`. `resources` is what the resource manager holds for
   * the current culture, `None` when it cannot load any (every lookup then
   * throws); a key it does not hold reads as null.
   */
  function LocalizedString(resources: Option<map<string, string>>, key: string): (text: string)
    ensures resources.Some? && key in resources.value ==> text == resources.value[key]
    ensures resources.None? || key !in resources.value ==> text == key
  {
    match resources
    case None => key
    case Some(table) => if key in table then table[key] else key
  }

  /** The lookup never invents text: it is either the key or a stored value. */
  lemma LocalizedStringSource(resources: Option<map<string, string>>, key: string)
    ensures var text := LocalizedString(resources, key);
      text == key || (resources.Some? && text in resources.value.Values)
  {
  }

  // ---------------------------------------------------------------------
  // Save format
  // ---------------------------------------------------------------------

  datatype ImageFormat = Png | Jpeg | Bmp

  predicate IsSeparator(c: char) { c == '/' || c == '\\' }

  /** A file extension: a '.', then at least one character that is neither '.' nor a separator. */
  predicate IsExtension(ext: string)
  {
    && 2 <= |ext| && ext[0] == '.'
    && forall k :: 1 <= k < |ext| ==> ext[k] != '.' && !IsSeparator(ext[k])
  }

  /**
   * The extension scan of `Path.GetExtension` from index `i` backwards; the
   * characters from `i` on have already been passed over.
   */
  function ExtensionFrom(path: string, i: nat): (ext: string)
    requires i <= |path|
    requires forall k :: i <= k < |path| ==> path[k] != '.' && !IsSeparator(path[k])
    ensures ext == [] || (IsExtension(ext) && |ext| <= |path| && ext == path[|path| - |ext|..])
  {
    if i == 0 then []
    else if path[i - 1] == '.' then (if i == |path| then [] else path[i - 1..])
    else if IsSeparator(path[i - 1]) then []
    else ExtensionFrom(path, i - 1)
  }

  /**
   * `Path.GetExtension`: from the last '.' of the last path component to the
   * end, or empty when that component has no '.' or ends with one.
   */
  function Extension(path: string): (ext: string)
    ensures ext == [] || (IsExtension(ext) && |ext| <= |path| && ext == path[|path| - |ext|..])
  {
    ExtensionFrom(path, |path|)
  }

  lemma {:induction false} ExtensionFromSuffix(base: string, ext: string, i: nat)
    requires IsExtension(ext)
    requires |base| < i <= |base + ext|
    ensures ExtensionFrom(base + ext, i) == ext
    decreases i
  {
    var path := base + ext;
    assert path[|base|] == '.';
    if path[i - 1] == '.' {
      assert i - 1 == |base|;
      assert path[i - 1..] == ext;
    } else {
      assert path[i - 1] == ext[i - 1 - |base|];
      ExtensionFromSuffix(base, ext, i - 1);
    }
  }

  /** The extension of a name that ends in an extension is that extension, whatever precedes it. */
  lemma ExtensionOfName(base: string, ext: string)
    requires IsExtension(ext)
    ensures Extension(base + ext) == ext
  {
    ExtensionFromSuffix(base, ext, |base + ext|);
  }

  /** A path whose last character is a separator has no extension. */
  lemma NoExtensionAfterSeparator(path: string)
    requires |path| > 0 && IsSeparator(path[|path| - 1])
    ensures Extension(path) == []
  {
  }

  predicate IsUpper(c: char) { 'A' <= c <= 'Z' }

  /** An upper-case ASCII letter becomes its lower-case letter; every other character is kept. */
  function ToLowerChar(c: char): (r: char)
    ensures !IsUpper(r)
    ensures !IsUpper(c) ==> r == c
    ensures IsUpper(c) ==> 'a' <= r <= 'z' && r as int - 'a' as int == c as int - 'A' as int
  {
    if IsUpper(c) then (c as int - 'A' as int + 'a' as int) as char else c
  }

  /** Lower-casing, for the letters an extension can hold. */
  function ToLower(s: string): (r: string)
    ensures |r| == |s|
    ensures forall k :: 0 <= k < |r| ==> !IsUpper(r[k])
    ensures forall k :: 0 <= k < |s| && !IsUpper(s[k]) ==> r[k] == s[k]
  {
    seq(|s|, k requires 0 <= k < |s| => ToLowerChar(s[k]))
  }

  /** Lower-casing twice is lower-casing once. */
  lemma ToLowerIdempotent(s: string)
    ensures ToLower(ToLower(s)) == ToLower(s)
  {
    var once := ToLower(s);
    forall k | 0 <= k < |once|
      ensures ToLower(once)[k] == once[k]
    {
      assert !IsUpper(once[k]);
    }
  }

  /**
   * Two strings that differ only in the case of ASCII letters (at each
   * position the characters are equal, or one is a capital and the other the
   * small letter 32 code points above it) lower-case to the same string.
   */
  lemma ToLowerIgnoresCase(s: string, t: string)
    requires |s| == |t|
    requires forall k :: 0 <= k < |s| ==>
      s[k] == t[k]
      || (IsUpper(s[k]) && t[k] as int == s[k] as int + 32)
      || (IsUpper(t[k]) && s[k] as int == t[k] as int + 32)
    ensures ToLower(s) == ToLower(t)
  {
    forall k | 0 <= k < |s|
      ensures ToLower(s)[k] == ToLower(t)[k]
    {
      assert ToLower(s)[k] == ToLowerChar(s[k]);
      assert ToLower(t)[k] == ToLowerChar(t[k]);
      if IsUpper(s[k]) && t[k] as int == s[k] as int + 32 {
        assert ToLowerChar(s[k]) as int == t[k] as int;
      } else if IsUpper(t[k]) && s[k] as int == t[k] as int + 32 {
        assert ToLowerChar(t[k]) as int == s[k] as int;
      }
    }
  }

  /** The save switch on the lower-cased extension; anything unrecognised keeps the PNG default. */
  function FormatForExtension(ext: string): (format: ImageFormat)
    ensures format == Jpeg <==> ToLower(ext) == ".jpg" || ToLower(ext) == ".jpeg"
    ensures format == Bmp <==> ToLower(ext) == ".bmp"
  {
    var lower := ToLower(ext);
    if lower == ".jpg" || lower == ".jpeg" then Jpeg
    else if lower == ".bmp" then Bmp
    else Png
  }

  /** The format a file is saved in, chosen by its name. */
  function SaveFormat(fileName: string): (format: ImageFormat)
    ensures Extension(fileName) == [] ==> format == Png
    ensures format == Jpeg <==> ToLower(Extension(fileName)) in {".jpg", ".jpeg"}
    ensures format == Bmp <==> ToLower(Extension(fileName)) == ".bmp"
  {
    FormatForExtension(Extension(fileName))
  }

  /** Any spelling of ".jpg", ".jpeg" or ".bmp" after any name selects that format; every other extension selects PNG. */
  lemma SaveFormatOfName(base: string, ext: string)
    requires IsExtension(ext)
    ensures SaveFormat(base + ext) == Jpeg <==> ToLower(ext) == ".jpg" || ToLower(ext) == ".jpeg"
    ensures SaveFormat(base + ext) == Bmp <==> ToLower(ext) == ".bmp"
    ensures SaveFormat(base + ext) == Png <==> ToLower(ext) !in {".jpg", ".jpeg", ".bmp"}
  {
    ExtensionOfName(base, ext);
  }

  /** Upper-case extensions select the same format as lower-case ones. */
  lemma SaveFormatIgnoresCase(base: string)
    ensures SaveFormat(base + ".JPG") == Jpeg
    ensures SaveFormat(base + ".Jpeg") == Jpeg
    ensures SaveFormat(base + ".BMP") == Bmp
    ensures SaveFormat(base + ".png") == Png
  {
    ExtensionOfName(base, ".JPG");
    ExtensionOfName(base, ".Jpeg");
    ExtensionOfName(base, ".BMP");
    ExtensionOfName(base, ".png");
    assert ToLower(".png") == ".png";
  }
}
