/** The image error handler of the product card and of the catalog: when an
    image fails to load, `src` is replaced by a bundled fallback unless it
    already is that fallback. The `src` the handler reads back is the attribute
    resolved to an absolute URL, while the fallback it compares against is a
    root-relative path. */
module ImageFallback {
  import opened Wrappers
  import opened Text
  import ImageProcessor

  /** What reading `img.src` gives: the attribute resolved against the page
      origin. A path without a leading '/' is resolved as if the page were at
      the site root. A protocol-relative attribute ('//host/x.jpg') is joined
      to the whole origin here instead of taking only its scheme; no fallback
      image has that form. */
  function Resolve(origin: string, attribute: string): (r: string)
    ensures ImageProcessor.IsAbsolute(attribute) ==> r == attribute
    ensures !ImageProcessor.IsAbsolute(attribute) && StartsWith(attribute, "/") ==> r == origin + attribute
    ensures ImageProcessor.IsAbsolute(origin) ==> ImageProcessor.IsAbsolute(r)
  {
    if ImageProcessor.IsAbsolute(attribute) then attribute
    else
      var r := if StartsWith(attribute, "/") then origin + attribute else origin + "/" + attribute;
      assert StartsWith(r, origin) by {
        assert r[..|origin|] == origin;
      }
      assert ImageProcessor.IsAbsolute(origin) ==> ImageProcessor.IsAbsolute(r) by {
        if StartsWith(origin, "http://") {
          ImageProcessor.StartsWithTrans(r, origin, "http://");
        } else if StartsWith(origin, "https://") {
          ImageProcessor.StartsWithTrans(r, origin, "https://");
        }
      }
      r
  }

  /** The guard as written: the resolved `src` against the relative fallback.
      The result is the new attribute, or `None` when `src` is left alone. */
  function HandlerAsWritten(origin: string, attribute: string, fallback: string): (r: Option<string>)
    ensures r.Some? ==> r.value == fallback
    ensures r == None <==> Resolve(origin, attribute) == fallback
  {
    if Resolve(origin, attribute) != fallback then Some(fallback) else None
  }

  /** The guard as intended: the resolved `src` against the resolved fallback. */
  function HandlerCorrected(origin: string, attribute: string, fallback: string): (r: Option<string>)
    ensures r.Some? ==> r.value == fallback
    ensures r == None <==> Resolve(origin, attribute) == Resolve(origin, fallback)
  {
    if Resolve(origin, attribute) != Resolve(origin, fallback) then Some(fallback) else None
  }

  /** How often `src` is reassigned over at most n error events, when every
      load fails, the fallback's included: each reassignment starts a load
      whose failure is the next event, and a handler that leaves `src` alone
      ends the chain. */
  function Reassignments(corrected: bool, origin: string, attribute: string, fallback: string, n: nat): (r: nat)
    ensures r <= n
    decreases n
  {
    if n == 0 then 0
    else
      var next := if corrected then HandlerCorrected(origin, attribute, fallback) else HandlerAsWritten(origin, attribute, fallback);
      match next
      case None => 0
      case Some(a) => 1 + Reassignments(corrected, origin, a, fallback, n - 1)
  }

  /** As written, with an http(s) origin and a root-relative fallback, the
      guard never holds back: n failing loads give n reassignments. */
  lemma {:induction false} AsWrittenNeverStops(origin: string, attribute: string, fallback: string, n: nat)
    requires ImageProcessor.IsAbsolute(origin) && StartsWith(fallback, "/")
    ensures Reassignments(false, origin, attribute, fallback, n) == n
    decreases n
  {
    if n > 0 {
      var resolved := Resolve(origin, attribute);
      assert resolved[0] == 'h' by {
        if StartsWith(resolved, "http://") {
          assert resolved[..7] == "http://";
        } else {
          assert resolved[..8] == "https://";
        }
      }
      assert fallback[0] == '/' by {
        assert fallback[..1] == "/";
      }
      assert HandlerAsWritten(origin, attribute, fallback) == Some(fallback);
      AsWrittenNeverStops(origin, fallback, fallback, n - 1);
    }
  }

  /** The intended guard reassigns at most once, whatever the inputs. */
  lemma CorrectedStopsAfterOne(origin: string, attribute: string, fallback: string, n: nat)
    ensures Reassignments(true, origin, attribute, fallback, n) <= 1
  {
    if n > 1 {
      assert HandlerCorrected(origin, fallback, fallback) == None;
    }
  }

  /** The intended guard does reassign a broken image that is not yet the
      fallback. */
  lemma CorrectedReplacesOthers(origin: string, attribute: string, fallback: string, n: nat)
    requires n > 0 && Resolve(origin, attribute) != Resolve(origin, fallback)
    ensures Reassignments(true, origin, attribute, fallback, n) == 1
  {
    assert HandlerCorrected(origin, fallback, fallback) == None;
  }

  /** A concrete instance: with the development server's origin, the card's
      generic fallback is reassigned on every one of three failed loads. */
  lemma AsWrittenExample()
    ensures Reassignments(false, "http://localhost:3000", ImageProcessor.GenericFallback, ImageProcessor.GenericFallback, 3) == 3
  {
    var fallback := ImageProcessor.GenericFallback;
    assert fallback[0] == '/';
    assert fallback[..1] == "/";
    assert "http://localhost:3000"[..7] == "http://";
    AsWrittenNeverStops("http://localhost:3000", fallback, fallback, 3);
  }
}
