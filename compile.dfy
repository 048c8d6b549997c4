/** The PDF compilation ladder of `generate_pdf` and `_compile_online`:
    two online services tried in order, then a local `pdflatex`, then
    saving the LaTeX source next to the requested PDF path. The network,
    the subprocess and the file system are not modelled; what each of them
    did is an input, and the ladder is the decision taken over those
    outcomes. */
module CompileLadder {
  import opened Strings

  /** The two online services and the local compiler. */
  datatype Backend = LatexOnline | TexLiveNet | LocalPdflatex

  /** What one online request came to: an exception before any response
      (a timeout or a connection error), or a response with its status,
      its body length and whether writing the body to the PDF path
      succeeded. */
  datatype Tier =
    | Raised
    | Response(status: int, length: nat, written: bool)

  /** A response is taken for a PDF when its status is 200 and its body is
      longer than 1000 bytes. */
  predicate Accepted(t: Tier)
  {
    t.Response? && t.status == 200 && t.length > 1000
  }

  /** A tier succeeds when its response is accepted and the PDF is written;
      a failed write raises inside the `try` and counts as a failure. */
  predicate Succeeds(t: Tier)
  {
    Accepted(t) && t.written
  }

  /** The outcome of a call: the `(success, message)` pair, the backends
      that were asked, which one wrote the PDF, and the path the LaTeX
      source was saved to, if any. */
  datatype Outcome = Outcome(
    success: bool,
    message: string,
    calls: seq<Backend>,
    wrotePdf: Option<Backend>,
    savedTex: Option<string>)

  const OnlineFailed := "All online compilation services failed. The LaTeX syntax may have errors, or the services are unavailable."
  const BothFailed := "Both online and local compilation failed. LaTeX source saved to "
  const SaveFailed := "Failed to save LaTeX file: "

  /** `_compile_online`: the second service is asked only when the first
      one did not produce the PDF, and the first success stops the ladder. */
  function CompileOnline(first: Tier, second: Tier): (o: Outcome)
    ensures o.success <==> Succeeds(first) || Succeeds(second)
    ensures o.calls == if Succeeds(first) then [LatexOnline] else [LatexOnline, TexLiveNet]
    ensures o.wrotePdf == if Succeeds(first) then Some(LatexOnline)
                          else if Succeeds(second) then Some(TexLiveNet) else None
    ensures o.savedTex == None
    ensures Succeeds(first) ==> o.message == "Compiled using LaTeX.Online"
    ensures !Succeeds(first) && Succeeds(second) ==> o.message == "Compiled using TeXLive.net"
    ensures !o.success ==> o.message == OnlineFailed
  {
    if Succeeds(first) then Outcome(true, "Compiled using LaTeX.Online", [LatexOnline], Some(LatexOnline), None)
    else if Succeeds(second) then Outcome(true, "Compiled using TeXLive.net", [LatexOnline, TexLiveNet], Some(TexLiveNet), None)
    else Outcome(false, OnlineFailed, [LatexOnline, TexLiveNet], None, None)
  }

  /** Online compilation was enabled and one of the services produced the PDF. */
  predicate OnlineSucceeds(useOnline: bool, first: Tier, second: Tier)
  {
    useOnline && (Succeeds(first) || Succeeds(second))
  }

  /** Where the LaTeX source is saved: every `.pdf` in the output path
      becomes `.tex`, as `str.replace` does. */
  function TexPath(outputPath: string): string
  {
    ReplaceAll(outputPath, ".pdf", ".tex")
  }

  /** `generate_pdf`. `local` is what `_compile_local` returned, used only
      when `pdflatex` is available; `saveError` is the message of the
      exception raised while writing the `.tex` file, if one was. */
  function GeneratePdf(outputPath: string, useOnline: bool, first: Tier, second: Tier,
                       pdflatexAvailable: bool, local: (bool, string),
                       saveError: Option<string>): (o: Outcome)
    ensures o.success <==>
      OnlineSucceeds(useOnline, first, second) || (pdflatexAvailable && local.0)
    ensures TexLiveNet in o.calls <==> useOnline && !Succeeds(first)
    ensures LatexOnline in o.calls <==> useOnline
    ensures LocalPdflatex in o.calls <==>
      !OnlineSucceeds(useOnline, first, second) && pdflatexAvailable
    ensures o.savedTex.Some? <==>
      !OnlineSucceeds(useOnline, first, second) && !pdflatexAvailable && saveError.None?
    ensures o.savedTex.Some? ==> o.savedTex.value == TexPath(outputPath)
    ensures !OnlineSucceeds(useOnline, first, second) && !pdflatexAvailable ==> !o.success
    ensures OnlineSucceeds(useOnline, first, second) ==> o == CompileOnline(first, second)
    ensures !OnlineSucceeds(useOnline, first, second) && pdflatexAvailable ==>
      o.wrotePdf == (if local.0 then Some(LocalPdflatex) else None)
  {
    var online := if useOnline then CompileOnline(first, second) else Outcome(false, "", [], None, None);
    if online.success then online
    else if pdflatexAvailable then
      Outcome(local.0, local.1, online.calls + [LocalPdflatex], if local.0 then Some(LocalPdflatex) else None, None)
    else
      match saveError
      case None => Outcome(false, BothFailed + TexPath(outputPath), online.calls, None, Some(TexPath(outputPath)))
      case Some(e) => Outcome(false, SaveFailed + e, online.calls, None, None)
  }

  // ---- properties of the ladder

  /** When the first service produces the PDF nothing else is asked, and
      the later outcomes do not matter. */
  lemma FirstTierDecides(outputPath: string, first: Tier, second: Tier, second': Tier,
                         available: bool, available': bool, local: (bool, string), local': (bool, string),
                         saveError: Option<string>, saveError': Option<string>)
    requires Succeeds(first)
    ensures GeneratePdf(outputPath, true, first, second, available, local, saveError)
         == GeneratePdf(outputPath, true, first, second', available', local', saveError')
    ensures GeneratePdf(outputPath, true, first, second, available, local, saveError).calls == [LatexOnline]
  {
  }

  /** With `pdflatex` available and no online success, the local result is
      returned exactly as it is, whether it succeeded or not: a failed local
      build never falls through to saving the source. */
  lemma LocalResultReturned(outputPath: string, useOnline: bool, first: Tier, second: Tier,
                            local: (bool, string), saveError: Option<string>)
    requires !OnlineSucceeds(useOnline, first, second)
    ensures var o := GeneratePdf(outputPath, useOnline, first, second, true, local, saveError);
      (o.success, o.message) == local && o.savedTex == None
  {
  }

  /** A `.pdf` output path whose stem holds no `.pdf` of its own gets its
      source saved under the same stem with `.tex`. */
  lemma TexPathSwapsExtension(stem: string)
    requires !Contains(stem, ".pdf")
    ensures TexPath(stem + ".pdf") == stem + ".tex"
  {
    var s := stem + ".pdf";
    var n := |stem|;
    assert OccursAt(s, ".pdf", n) by { assert s[n..n + 4] == ".pdf"; }
    forall j | 0 <= j < n ensures !OccursAt(s, ".pdf", j) {
      if j + 4 <= n {
        assert s[j..j + 4] == stem[j..j + 4];
        assert !OccursAt(stem, ".pdf", j);
      } else {
        assert s[n] == '.' && ".pdf"[n - j] != '.';
        assert s[j..j + 4][n - j] == s[n];
      }
    }
    ReplaceFirst(s, ".pdf", ".tex", n);
    assert s[n + 4..] == "";
    assert s[..n] == stem;
  }

  /** The result when every tier fails and no `pdflatex` is installed: the
      source is saved and the message names the path, or the save error is
      reported; success is false either way. */
  lemma FallbackMessage(outputPath: string, useOnline: bool, first: Tier, second: Tier,
                        local: (bool, string), saveError: Option<string>)
    requires !OnlineSucceeds(useOnline, first, second)
    ensures var o := GeneratePdf(outputPath, useOnline, first, second, false, local, saveError);
      !o.success &&
      o.message == match saveError
                   case None => BothFailed + TexPath(outputPath)
                   case Some(e) => SaveFailed + e
  {
  }

  // ---- the ladder as the early-return chain it is

  method CompileOnlineChain(first: Tier, second: Tier) returns (o: Outcome)
    ensures o == CompileOnline(first, second)
  {
    if Succeeds(first) {
      return Outcome(true, "Compiled using LaTeX.Online", [LatexOnline], Some(LatexOnline), None);
    }
    if Succeeds(second) {
      return Outcome(true, "Compiled using TeXLive.net", [LatexOnline, TexLiveNet], Some(TexLiveNet), None);
    }
    return Outcome(false, OnlineFailed, [LatexOnline, TexLiveNet], None, None);
  }

  method GeneratePdfChain(outputPath: string, useOnline: bool, first: Tier, second: Tier,
                          pdflatexAvailable: bool, local: (bool, string),
                          saveError: Option<string>) returns (o: Outcome)
    ensures o == GeneratePdf(outputPath, useOnline, first, second, pdflatexAvailable, local, saveError)
  {
    var calls: seq<Backend> := [];
    if useOnline {
      var online := CompileOnlineChain(first, second);
      if online.success {
        return online;
      }
      calls := online.calls;
    }
    if pdflatexAvailable {
      return Outcome(local.0, local.1, calls + [LocalPdflatex], if local.0 then Some(LocalPdflatex) else None, None);
    }
    var texPath := TexPath(outputPath);
    if saveError.None? {
      return Outcome(false, BothFailed + texPath, calls, None, Some(texPath));
    }
    return Outcome(false, SaveFailed + saveError.value, calls, None, None);
  }
}
