/**
 Whether `--check` will be quiet, read off the document as it is written: the exact
 condition of every kind of job in one, and for whole documents.
 */
module WrittenDocuments {
  import opened Options
  import opened Texts
  import opened WorkflowVocabulary
  import opened StepLists
  import opened WorkflowStages
  import opened StepFacts
  import opened RewiredJobs
  import opened RewiredFixedPoint
  import opened RewiredSettling
  import opened RewiredNecessity
  import opened RewiredIdempotence
  import opened WorkflowDocuments
  import opened WorkflowFixedPoint
  import opened WrittenJobs
  import opened WrittenSpecialJobs
  import opened WrittenProbeJob
  import opened WrittenLintJob
  import opened TidyJobs

  /**
   A job on which the second run changes nothing.  Without the steps named J1 and J2, which
   every run takes out, its roles are still filled and its first checkout bears no anchor of
   an insertion to be made; and the lint job installs markdownlint at most once.  In the
   probe and lint jobs some steps are first given the name or the action they will bear.
   */
  predicate Written(f: File, pester: bool, n: string, s: seq<Step>) {
    if n == "lint" then Count(s, DROPPED) <= 1 && AnchorsClear(f, n, WithoutProbes(Linted(s)))
    else if pester && n == "pre-init" then GateWritten(f, s) && AnchorsClear(f, n, WithoutProbes(s))
    else if f.Validate? then true
    else if n == "probe" then ProbeWritten(s) && AnchorsClear(f, n, WithoutProbes(Renamed(s)))
    else RolesWritten(n, s) && AnchorsClear(f, n, WithoutProbes(s))
  }

  /** The exact condition on a job, from its steps before any run. */
  lemma {:induction false} WrittenIff(f: File, pester: bool, n: string, s: seq<Step>)
    requires Rewires(f)
    ensures var q := RewiredSteps(f, pester, n, s);
      RewiredSteps(f, pester, n, q) == q <==> Written(f, pester, n, s)
    ensures Settles(f, pester, n, s) <==> Written(f, pester, n, s)
  {
    RewiredIff(f, pester, n, s);
    if n == "lint" {
      WrittenLintIff(f, pester, s);
    } else if pester && n == "pre-init" {
      WrittenGateIff(f, s);
    } else if f.Validate? {
      ValidateSettles(pester, n, s);
    } else if n == "probe" {
      WrittenProbeIff(pester, s);
    } else {
      WrittenSettlesIff(pester, n, s);
    }
  }

  lemma {:induction false} SkeletonsSettle(f: File, pester: bool, n: string)
    requires Created(f, n)
    ensures JobConverges(f, pester, n, NotJob(""))
  {
    TidyStart(f, n, NotJob(""));
    TidySettles(f, pester, n, StepsOf(StartOf(f, n, NotJob(""))));
  }

  lemma {:induction false} NodeConvergesIff(f: File, pester: bool, n: string, node: Node)
    requires Rewires(f)
    ensures JobConverges(f, pester, n, node) <==> (node.Job? ==> Written(f, pester, n, StepsOf(node)))
  {
    if node.Job? {
      WrittenIff(f, pester, n, StepsOf(node));
    } else if Created(f, n) {
      SkeletonsSettle(f, pester, n);
      assert StartOf(f, n, node) == StartOf(f, n, NotJob(""));
    }
  }

  /** Updating twice is updating once exactly when every job is so written. */
  lemma {:induction false} WrittenTwiceIff(f: File, doc: Doc)
    requires Rewires(f)
    ensures Converges(f, doc) <==>
            forall n | n in doc.jobs && doc.jobs[n].Job? :: Written(f, IsPester(f, doc.name), n, StepsOf(doc.jobs[n]))
    ensures Updated(f, Updated(f, doc)) == Updated(f, doc) <==> Converges(f, doc)
  {
    var pester := IsPester(f, doc.name);
    UpdateTwiceIff(f, doc);
    forall n
      ensures n in doc.jobs ==> n in Updated(f, doc).jobs
      ensures JobConverges(f, pester, n, Lookup(doc.jobs, n)) <==>
              (n in doc.jobs && doc.jobs[n].Job? ==> Written(f, pester, n, StepsOf(doc.jobs[n])))
    {
      RunDocNode(FilePipeline(f, doc), doc, n);
      NodeConvergesIff(f, pester, n, Lookup(doc.jobs, n));
    }
  }
}
