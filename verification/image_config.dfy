/** The image-loading request and its builder. Drawables, the target view,
    transformations and listeners are handles: the builder only stores them,
    so their identity is all that matters. */
module ImageConfig {
  import opened Results
  import opened Text

  type Handle = nat

  /** A built request. */
  datatype Config = Config(
    shouldCenterInside: bool,
    shouldCenterCrop: bool,
    shouldFit: bool,
    targetWidth: int,
    targetHeight: int,
    imageUrl: string,
    progressDrawable: Option<Handle>,
    errorDrawable: Option<Handle>,
    target: Handle,
    transformations: seq<Handle>,
    onStart: Option<Handle>,
    onSuccess: Option<Handle>,
    onFailure: Option<Handle>)
  {
    predicate HasTargetSize() { targetWidth > 0 && targetHeight > 0 }
    predicate HasTransformations() { |transformations| > 0 }
    predicate HasAtLeastOneResultListener() { onSuccess.Some? || onFailure.Some? }
  }

  /** The builder's state: a request in the making, with no target yet. */
  datatype Builder = Builder(
    shouldCenterInside: bool,
    shouldCenterCrop: bool,
    shouldFit: bool,
    targetWidth: int,
    targetHeight: int,
    imageUrl: string,
    progressDrawable: Option<Handle>,
    errorDrawable: Option<Handle>,
    target: Option<Handle>,
    transformations: seq<Handle>,
    onStart: Option<Handle>,
    onSuccess: Option<Handle>,
    onFailure: Option<Handle>)

  const Fresh := Builder(false, false, false, 0, 0, "", None, None, None, [], None, None, None)

  /** What `require` (argument errors) and `check` (state errors) throw. */
  datatype BuildError =
    | WidthNotPositive
    | HeightNotPositive
    | BlankImageUrl
    | ImageUrlNotSet
    | TargetNotSet

  /** One builder call. */
  datatype Call =
    | CenterCrop
    | CenterInside
    | Fit
    | Resize(width: int, height: int)
    | ImageUrl(url: string)
    | ProgressDrawable(drawable: Handle)
    | ErrorDrawable(drawable: Handle)
    | Target(view: Handle)
    | Transformation(transformation: Handle)
    | Transformations(list: seq<Handle>)
    | OnStart(action: Handle)
    | OnSuccess(action: Handle)
    | OnFailure(action: Handle)

  /** `resize` rejects a non-positive width first, then a non-positive
      height; otherwise it sets both. */
  function Resize(b: Builder, width: int, height: int): (r: Result<Builder, BuildError>)
    ensures r.Err? <==> width <= 0 || height <= 0
    ensures width <= 0 ==> r == Err(WidthNotPositive)
    ensures width > 0 && height <= 0 ==> r == Err(HeightNotPositive)
    ensures r.Ok? ==> r.value == b.(targetWidth := width, targetHeight := height)
  {
    if width <= 0 then Err(WidthNotPositive)
    else if height <= 0 then Err(HeightNotPositive)
    else Ok(b.(targetWidth := width, targetHeight := height))
  }

  /** `imageUrl` rejects a blank url. */
  function SetImageUrl(b: Builder, url: string): (r: Result<Builder, BuildError>)
    ensures r.Err? <==> IsBlank(url)
    ensures r.Err? ==> r.error == BlankImageUrl
    ensures r.Ok? ==> r.value == b.(imageUrl := url)
  {
    if IsBlank(url) then Err(BlankImageUrl) else Ok(b.(imageUrl := url))
  }

  function Apply(b: Builder, call: Call): (r: Result<Builder, BuildError>)
    ensures r.Err? ==> call.Resize? || call.ImageUrl?
    ensures r.Err? <==> (call.Resize? && (call.width <= 0 || call.height <= 0)) || (call.ImageUrl? && IsBlank(call.url))
    ensures call.Resize? ==> r == Resize(b, call.width, call.height)
    ensures call.ImageUrl? ==> r == SetImageUrl(b, call.url)
    ensures call.CenterCrop? ==> r == Ok(b.(shouldCenterCrop := true))
    ensures call.CenterInside? ==> r == Ok(b.(shouldCenterInside := true))
    ensures call.Fit? ==> r == Ok(b.(shouldFit := true))
    ensures call.ProgressDrawable? ==> r == Ok(b.(progressDrawable := Some(call.drawable)))
    ensures call.ErrorDrawable? ==> r == Ok(b.(errorDrawable := Some(call.drawable)))
    ensures call.Target? ==> r == Ok(b.(target := Some(call.view)))
    ensures call.OnStart? ==> r == Ok(b.(onStart := Some(call.action)))
    ensures call.OnSuccess? ==> r == Ok(b.(onSuccess := Some(call.action)))
    ensures call.OnFailure? ==> r == Ok(b.(onFailure := Some(call.action)))
    ensures call.Transformation? ==> r == Ok(b.(transformations := b.transformations + [call.transformation]))
    ensures call.Transformations? ==> r == Ok(b.(transformations := b.transformations + call.list))
  {
    match call
    case CenterCrop => Ok(b.(shouldCenterCrop := true))
    case CenterInside => Ok(b.(shouldCenterInside := true))
    case Fit => Ok(b.(shouldFit := true))
    case Resize(w, h) => Resize(b, w, h)
    case ImageUrl(u) => SetImageUrl(b, u)
    case ProgressDrawable(d) => Ok(b.(progressDrawable := Some(d)))
    case ErrorDrawable(d) => Ok(b.(errorDrawable := Some(d)))
    case Target(v) => Ok(b.(target := Some(v)))
    case Transformation(t) => Ok(b.(transformations := b.transformations + [t]))
    case Transformations(ts) => Ok(b.(transformations := b.transformations + ts))
    case OnStart(a) => Ok(b.(onStart := Some(a)))
    case OnSuccess(a) => Ok(b.(onSuccess := Some(a)))
    case OnFailure(a) => Ok(b.(onFailure := Some(a)))
  }

  /** A chain of builder calls on a fresh builder; the first exception
      ends it. */
  function Run(calls: seq<Call>): Result<Builder, BuildError>
  {
    if |calls| == 0 then Ok(Fresh)
    else
      match Run(calls[..|calls| - 1])
      case Err(e) => Err(e)
      case Ok(b) => Apply(b, calls[|calls| - 1])
  }

  /** `build` checks that a url and a target were set. */
  function Build(b: Builder): (r: Result<Config, BuildError>)
    ensures r.Ok? <==> b.imageUrl != "" && b.target.Some?
    ensures b.imageUrl == "" ==> r == Err(ImageUrlNotSet)
    ensures b.imageUrl != "" && b.target.None? ==> r == Err(TargetNotSet)
    ensures r.Ok? ==> r.value.imageUrl == b.imageUrl && r.value.target == b.target.value
    ensures r.Ok? ==> r.value.transformations == b.transformations
    ensures r.Ok? ==> r.value.targetWidth == b.targetWidth && r.value.targetHeight == b.targetHeight
    ensures r.Ok? ==> r.value.onSuccess == b.onSuccess && r.value.onFailure == b.onFailure
    ensures r.Ok? ==> r.value.onStart == b.onStart
    ensures r.Ok? ==> r.value.progressDrawable == b.progressDrawable && r.value.errorDrawable == b.errorDrawable
    ensures r.Ok? ==> r.value.shouldCenterInside == b.shouldCenterInside &&
                      r.value.shouldCenterCrop == b.shouldCenterCrop && r.value.shouldFit == b.shouldFit
  {
    if b.imageUrl == "" then Err(ImageUrlNotSet)
    else if b.target.None? then Err(TargetNotSet)
    else Ok(Config(b.shouldCenterInside, b.shouldCenterCrop, b.shouldFit, b.targetWidth, b.targetHeight,
                   b.imageUrl, b.progressDrawable, b.errorDrawable, b.target.value, b.transformations,
                   b.onStart, b.onSuccess, b.onFailure))
  }

  /** What every builder reachable by calls satisfies: the url is unset or
      not blank, and the size is unset or positive in both directions. */
  predicate Consistent(b: Builder) {
    (b.imageUrl == "" || !IsBlank(b.imageUrl)) &&
    ((b.targetWidth == 0 && b.targetHeight == 0) || (b.targetWidth > 0 && b.targetHeight > 0))
  }

  lemma {:induction false} RunKeepsConsistent(calls: seq<Call>)
    ensures Run(calls).Ok? ==> Consistent(Run(calls).value)
  {
    if |calls| > 0 {
      var init := calls[..|calls| - 1];
      RunKeepsConsistent(init);
      if Run(init).Ok? {
        ApplyKeepsConsistent(Run(init).value, calls[|calls| - 1]);
      }
    }
  }

  lemma ApplyKeepsConsistent(b: Builder, call: Call)
    requires Consistent(b)
    ensures Apply(b, call).Ok? ==> Consistent(Apply(b, call).value)
  {
  }

  /** A built request never carries a blank url, and it either has a full
      target size or none at all. */
  lemma BuiltConfigIsConsistent(calls: seq<Call>)
    requires Run(calls).Ok? && Build(Run(calls).value).Ok?
    ensures !IsBlank(Build(Run(calls).value).value.imageUrl)
    ensures var c := Build(Run(calls).value).value;
      c.HasTargetSize() <==> c.targetWidth != 0
  {
    RunKeepsConsistent(calls);
  }

  /** Setting a url and a target is all a request needs. */
  lemma UrlAndTargetSuffice(url: string, view: Handle, more: seq<Call>)
    requires !IsBlank(url)
    requires forall i :: 0 <= i < |more| ==> !more[i].Resize? && !more[i].ImageUrl?
    ensures Run([ImageUrl(url), Target(view)] + more).Ok?
    ensures Build(Run([ImageUrl(url), Target(view)] + more).value).Ok?
  {
    UrlAndTargetSurvive(url, view, more);
  }

  lemma {:induction false} UrlAndTargetSurvive(url: string, view: Handle, more: seq<Call>)
    requires !IsBlank(url)
    requires forall i :: 0 <= i < |more| ==> !more[i].Resize? && !more[i].ImageUrl?
    ensures Run([ImageUrl(url), Target(view)] + more).Ok?
    ensures Run([ImageUrl(url), Target(view)] + more).value.imageUrl == url
    ensures Run([ImageUrl(url), Target(view)] + more).value.target.Some?
  {
    var calls := [ImageUrl(url), Target(view)] + more;
    if |more| == 0 {
      assert calls[..1] == [ImageUrl(url)];
      assert calls[..1][..0] == [];
      assert Run(calls[..1]) == SetImageUrl(Fresh, url);
    } else {
      var init := more[..|more| - 1];
      UrlAndTargetSurvive(url, view, init);
      assert calls[..|calls| - 1] == [ImageUrl(url), Target(view)] + init;
      ApplyKeepsUrlAndTarget(Run(calls[..|calls| - 1]).value, more[|more| - 1]);
    }
  }

  /** A call that is neither `resize` nor `imageUrl` succeeds and keeps the
      url and the target. */
  lemma ApplyKeepsUrlAndTarget(b: Builder, call: Call)
    requires !call.Resize? && !call.ImageUrl?
    ensures Apply(b, call).Ok?
    ensures Apply(b, call).value.imageUrl == b.imageUrl
    ensures b.target.Some? ==> Apply(b, call).value.target.Some?
  {
  }

  /** Transformations accumulate in call order. */
  lemma TransformationsAccumulate(b: Builder, t: Handle, ts: seq<Handle>)
    ensures Apply(b, Transformation(t)).Ok?
    ensures Apply(Apply(b, Transformation(t)).value, Transformations(ts)).value.transformations
         == b.transformations + [t] + ts
  {
  }

  /** Whether one of the calls is of the kind `kind` picks out. */
  predicate Called(calls: seq<Call>, kind: Call -> bool) {
    exists i :: 0 <= i < |calls| && kind(calls[i])
  }

  /** A call made before the last one was made in the whole chain, and
      conversely a call of the chain is the last one or an earlier one. */
  lemma CalledSplit(calls: seq<Call>, kind: Call -> bool)
    requires |calls| > 0
    ensures Called(calls, kind) <==> Called(calls[..|calls| - 1], kind) || kind(calls[|calls| - 1])
  {
    var init := calls[..|calls| - 1];
    if Called(calls, kind) && !kind(calls[|calls| - 1]) {
      var i :| 0 <= i < |calls| && kind(calls[i]);
      assert init[i] == calls[i];
    }
    if Called(init, kind) {
      var i :| 0 <= i < |init| && kind(init[i]);
      assert calls[i] == init[i];
    }
  }

  predicate IsResultListenerCall(c: Call) { c.OnSuccess? || c.OnFailure? }

  /** A request has a result listener exactly when `onSuccess` or
      `onFailure` was called on its builder; `onStart` does not count. */
  lemma {:induction false} ResultListenerComesFromCalls(calls: seq<Call>)
    requires Run(calls).Ok?
    ensures (Run(calls).value.onSuccess.Some? || Run(calls).value.onFailure.Some?)
        <==> Called(calls, IsResultListenerCall)
    ensures Build(Run(calls).value).Ok? ==>
      (Build(Run(calls).value).value.HasAtLeastOneResultListener() <==> Called(calls, IsResultListenerCall))
  {
    if |calls| > 0 {
      var init := calls[..|calls| - 1];
      assert Run(init).Ok?;
      ResultListenerComesFromCalls(init);
      ApplyListeners(Run(init).value, calls[|calls| - 1]);
      CalledSplit(calls, IsResultListenerCall);
    }
  }

  /** One call sets a result listener exactly when it is `onSuccess` or
      `onFailure`, and none removes one. */
  lemma ApplyListeners(b: Builder, call: Call)
    requires Apply(b, call).Ok?
    ensures var a := Apply(b, call).value;
      (a.onSuccess.Some? || a.onFailure.Some?) <==> (b.onSuccess.Some? || b.onFailure.Some? || IsResultListenerCall(call))
  {
  }

  predicate IsResize(c: Call) { c.Resize? }

  /** A request has a target size exactly when `resize` was called on its
      builder: the default size of 0 by 0 is no target size. */
  lemma {:induction false} TargetSizeComesFromResize(calls: seq<Call>)
    requires Run(calls).Ok?
    ensures (Run(calls).value.targetWidth > 0 && Run(calls).value.targetHeight > 0) <==> Called(calls, IsResize)
    ensures Run(calls).value.targetWidth == 0 <==> !Called(calls, IsResize)
  {
    if |calls| > 0 {
      var init := calls[..|calls| - 1];
      assert Run(init).Ok?;
      TargetSizeComesFromResize(init);
      ApplyTargetSize(Run(init).value, calls[|calls| - 1]);
      CalledSplit(calls, IsResize);
    }
  }

  /** One call sets a positive target size exactly when it is `resize`, and
      none clears one. */
  lemma ApplyTargetSize(b: Builder, call: Call)
    requires Apply(b, call).Ok?
    ensures var a := Apply(b, call).value;
      (a.targetWidth > 0 && a.targetHeight > 0) <==> (b.targetWidth > 0 && b.targetHeight > 0) || IsResize(call)
    ensures var a := Apply(b, call).value;
      a.targetWidth == 0 <==> b.targetWidth == 0 && !IsResize(call)
  {
  }
}
