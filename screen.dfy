/**
 * Reading validation messages off the screen: `is_error_displayed` and the
 * single-word-name probe of the submission step. Each on-screen read is an
 * abstract observation; the model keeps only the runner's decisions about it.
 */
module Screen {
  import opened Wrappers
  import opened Strings

  /** Reading the "text" attribute of one element: a string, None, or an exception. */
  datatype Attr = Text(s: string) | NoText | Raises(e: string)

  /** Listing every TextView on screen: the elements' texts, in element order, or an exception. */
  datatype Listing = Listed(items: seq<Attr>) | ListingRaises(e: string)

  /**
   * What `is_error_displayed` sees: the TextView listing and the snackbar
   * lookup (None when no snackbar element is found; the lookup itself never raises).
   */
  datatype ScreenState = ScreenState(textViews: Listing, snackbar: Option<Attr>)

  /** The words whose presence makes a text a validation message. */
  const ErrorKeywords: seq<string> := ["error", "invalid", "please", "required"]

  /** The phrase the single-word-name check looks for. */
  const NameAndSurname: string := "name and surname"

  /** Which text test a scan applies. */
  datatype Probe = ErrorWords | NameWords

  /**
   * A text is an error message when its lower-case form contains one of the
   * keywords; such a text is at least as long as the shortest keyword.
   */
  predicate IsErrorText(text: string)
    ensures IsErrorText(text) ==> |text| >= 5
  {
    exists k | k in ErrorKeywords :: Contains(Lower(text), k)
  }

  /** The test each probe applies to a non-empty text. */
  predicate Matches(p: Probe, text: string)
  {
    match p
    case ErrorWords => IsErrorText(text)
    case NameWords => Contains(Lower(text), NameAndSurname)
  }

  /** An element that ends a scan: its read raises, or its text is truthy and matches. */
  predicate Decisive(a: Attr, p: Probe)
  {
    a.Raises? || (a.Text? && a.s != "" && Matches(p, a.s))
  }

  /** How a scan over the listed elements ended. */
  datatype Scan = Hit(text: string) | Miss | Aborted

  /**
   * The loop over the listed elements: the first decisive element decides,
   * a matching text is reported and an exception aborts the scan.
   */
  function ScanTexts(items: seq<Attr>, p: Probe): (r: Scan)
    ensures r == Miss <==> forall j :: 0 <= j < |items| ==> !Decisive(items[j], p)
    ensures r != Miss ==>
      exists k :: 0 <= k < |items| && Decisive(items[k], p)
        && (forall j :: 0 <= j < k ==> !Decisive(items[j], p))
        && r == (if items[k].Raises? then Aborted else Hit(items[k].s))
  {
    if items == [] then Miss
    else if Decisive(items[0], p) then
      (if items[0].Raises? then Aborted else Hit(items[0].s))
    else
      var r := ScanTexts(items[1..], p);
      assert forall j :: 1 <= j < |items| ==> items[j] == items[1..][j - 1];
      if r != Miss then
        var k :| 0 <= k < |items[1..]| && Decisive(items[1..][k], p)
          && (forall j :: 0 <= j < k ==> !Decisive(items[1..][j], p))
          && r == (if items[1..][k].Raises? then Aborted else Hit(items[1..][k].s));
        assert Decisive(items[k + 1], p) && forall j :: 0 <= j < k + 1 ==> !Decisive(items[j], p);
        r
      else
        r
  }

  /** The scan as the source runs it: a loop over the elements that stops at the first decisive one. */
  method ScanScreen(items: seq<Attr>, p: Probe) returns (r: Scan)
    ensures r == ScanTexts(items, p)
  {
    var i := 0;
    while i < |items|
      invariant 0 <= i <= |items|
      invariant forall j :: 0 <= j < i ==> !Decisive(items[j], p)
    {
      match items[i] {
        case Raises(_) =>
          return Aborted;
        case NoText =>
        case Text(t) =>
          if t != "" && Matches(p, t) {
            return Hit(t);
          }
      }
      i := i + 1;
    }
    return Miss;
  }

  /** The pair `is_error_displayed` returns; `msg` is None when the snackbar had no text. */
  datatype ErrorCheck = ErrorCheck(found: bool, msg: Option<string>)

  /** No error shown: `(False, "")`. */
  const NoError := ErrorCheck(false, Some(""))

  /**
   * `is_error_displayed`: the first TextView whose text is an error message,
   * else any snackbar text, else no error; an exception means no error.
   * Reporting no error always gives `(False, "")`, an error needs a readable
   * TextView listing, and a None message only comes from a snackbar without text.
   */
  function ErrorShown(screen: ScreenState): (r: ErrorCheck)
    ensures !r.found ==> r == NoError
    ensures r.found ==> screen.textViews.Listed?
    ensures r.found && r.msg.None? ==> screen.snackbar == Some(NoText)
  {
    match screen.textViews
    case ListingRaises(_) => NoError
    case Listed(items) =>
      match ScanTexts(items, ErrorWords)
      case Hit(t) => ErrorCheck(true, Some(t))
      case Aborted => NoError
      case Miss =>
        match screen.snackbar
        case None => NoError
        case Some(Raises(_)) => NoError
        case Some(Text(t)) => ErrorCheck(true, Some(t))
        case Some(NoText) => ErrorCheck(true, None)
  }

  /** `is_error_displayed` as a loop over the screen's TextViews. */
  method IsErrorDisplayed(screen: ScreenState) returns (found: bool, msg: Option<string>)
    ensures ErrorCheck(found, msg) == ErrorShown(screen)
  {
    if screen.textViews.ListingRaises? {
      return false, Some("");
    }
    var scan := ScanScreen(screen.textViews.items, ErrorWords);
    match scan
    case Hit(t) => return true, Some(t);
    case Aborted => return false, Some("");
    case Miss =>
      match screen.snackbar
      case None => return false, Some("");
      case Some(Raises(_)) => return false, Some("");
      case Some(Text(t)) => return true, Some(t);
      case Some(NoText) => return true, None;
  }

  /**
   * The first TextView (in element order) holding an error message is the one
   * reported, whatever follows it and whatever the snackbar shows.
   */
  lemma FirstErrorTextReported(items: seq<Attr>, snackbar: Option<Attr>, k: nat)
    requires k < |items| && items[k].Text? && items[k].s != "" && IsErrorText(items[k].s)
    requires forall j :: 0 <= j < k ==> !items[j].Raises? && !(items[j].Text? && items[j].s != "" && IsErrorText(items[j].s))
    ensures ErrorShown(ScreenState(Listed(items), snackbar)) == ErrorCheck(true, Some(items[k].s))
  {
    assert Decisive(items[k], ErrorWords);
  }

  /**
   * With every TextView read and none holding an error message, and no
   * snackbar, the result is `(False, "")`.
   */
  lemma NoErrorTextNoSnackbar(items: seq<Attr>)
    requires forall j :: 0 <= j < |items| ==> !items[j].Raises? && !(items[j].Text? && IsErrorText(items[j].s))
    ensures ErrorShown(ScreenState(Listed(items), None)) == ErrorCheck(false, Some(""))
  {
    assert forall j :: 0 <= j < |items| ==> !Decisive(items[j], ErrorWords);
  }

  /**
   * Reporting an error means a text was found: either the first decisive
   * TextView, which holds an error message and is the one reported, or, when
   * no TextView is decisive, the snackbar, whose own text (or None) is reported.
   */
  lemma FoundErrorHasSource(screen: ScreenState)
    requires ErrorShown(screen).found
    ensures screen.textViews.Listed?
    ensures var items, msg := screen.textViews.items, ErrorShown(screen).msg;
      (exists k :: 0 <= k < |items| && items[k].Text? && IsErrorText(items[k].s)
         && (forall j :: 0 <= j < k ==> !Decisive(items[j], ErrorWords))
         && msg == Some(items[k].s))
      || ((forall j :: 0 <= j < |items| ==> !Decisive(items[j], ErrorWords))
          && screen.snackbar.Some? && !screen.snackbar.value.Raises?
          && (screen.snackbar.value.Text? ==> msg == Some(screen.snackbar.value.s))
          && (screen.snackbar.value.NoText? ==> msg == None))
  {
  }

  /**
   * With the TextViews read and none holding an error message, a snackbar's
   * text is reported as the error.
   */
  lemma SnackbarFallback(items: seq<Attr>, t: string)
    requires forall j :: 0 <= j < |items| ==> !items[j].Raises? && !(items[j].Text? && items[j].s != "" && IsErrorText(items[j].s))
    ensures ErrorShown(ScreenState(Listed(items), Some(Text(t)))) == ErrorCheck(true, Some(t))
    ensures ErrorShown(ScreenState(Listed(items), Some(NoText))) == ErrorCheck(true, None)
  {
    assert forall j :: 0 <= j < |items| ==> !Decisive(items[j], ErrorWords);
  }

  /** Whether a text is an error message does not depend on letter case. */
  lemma {:induction false} ErrorTextIgnoresCase(text: string)
    ensures IsErrorText(text) <==> IsErrorText(Lower(text))
  {
    LowerIdempotent(text);
  }
}
