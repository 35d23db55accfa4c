/** The command line: `submit <url>` submits one URL, `boost <url>...`
    builds and submits the bridge page for the given URLs, and anything else
    prints the list of commands. */
module Cli {
  import opened Js
  import opened BridgePage
  import opened Indexing

  const SubmitUsage := "Usage: node src/cli.js submit <url>"
  const BoostUsage := "Usage: node src/cli.js boost <url1> <url2> ..."

  /** What the arguments after the script name ask for. */
  datatype Command =
    | Submit(url: string)
    | Boost(urls: seq<string>)
    | UsageError(message: string, exitCode: int)
    | Help

  /** `process.argv.slice(2)` read as a command. */
  function Dispatch(args: seq<string>): (cmd: Command)
    ensures cmd.Submit? <==> |args| >= 2 && args[0] == "submit" && args[1] != ""
    ensures cmd.Submit? ==> cmd.url == args[1]
    ensures cmd.Boost? <==> |args| >= 2 && args[0] == "boost"
    ensures cmd.Boost? ==> cmd.urls == args[1..] && |cmd.urls| > 0
    ensures cmd == UsageError(SubmitUsage, 1) <==> |args| >= 1 && args[0] == "submit" && (|args| == 1 || args[1] == "")
    ensures cmd == UsageError(BoostUsage, 1) <==> args == ["boost"]
    ensures cmd.Help? <==> |args| == 0 || (args[0] != "submit" && args[0] != "boost")
    ensures cmd.UsageError? ==> cmd.exitCode == 1
  {
    if |args| == 0 then Help
    else if args[0] == "submit" then
      if |args| >= 2 && args[1] != "" then Submit(args[1]) else UsageError(SubmitUsage, 1)
    else if args[0] == "boost" then
      if |args| >= 2 then Boost(args[1..]) else UsageError(BoostUsage, 1)
    else Help
  }

  /** Every command-line argument is a string, so a boost always builds
      its page: its inputs never make `generateBridgePage` throw. */
  lemma BoostInputsAreStrings(urls: seq<string>)
    ensures AllStrings(ToValues(urls))
    ensures AsStrings(ToValues(urls)) == urls
  {
    var vs := ToValues(urls);
    assert AsStrings(vs) == urls by {
      forall i | 0 <= i < |urls| ensures AsStrings(vs)[i] == urls[i] {
        assert vs[i] == JString(AsStrings(vs)[i]);
      }
    }
  }

  function ToValues(urls: seq<string>): (vs: seq<JsValue>)
    ensures |vs| == |urls|
    ensures forall i :: 0 <= i < |urls| ==> vs[i] == JString(urls[i])
  {
    seq(|urls|, i requires 0 <= i < |urls| => JString(urls[i]))
  }

  /** How a run of the command line ends. */
  datatype Outcome =
    | Submitted(record: SubmissionRecord)
    | BridgeSubmitted(record: SubmissionRecord)
    | Exited(message: string, exitCode: int)
    | PrintedHelp

  /** Runs the command the arguments name against the indexer. */
  method Run(indexer: Indexer, args: seq<string>, world: World) returns (outcome: Outcome)
    modifies indexer
    ensures Dispatch(args).Submit? ==>
      outcome == Submitted(Submission(old(indexer.auth), args[1], world))
      && indexer.history == [outcome.record] + old(indexer.history)
      && indexer.historyFile == Parsed(Retained(indexer.history))
      && indexer.sent == old(indexer.sent)
         + Requests(old(indexer.auth), indexer.config.siteUrl, IndexNowKey(world.indexNowKey), args[1], world)
      && indexer.bridgeCalls == old(indexer.bridgeCalls)
      && indexer.bridgeFile == old(indexer.bridgeFile) && indexer.sitemapFile == old(indexer.sitemapFile)
    ensures Dispatch(args).Boost? ==>
      var bridgeUrl := BridgeUrl(indexer.config.siteUrl);
      outcome == BridgeSubmitted(Submission(old(indexer.auth), bridgeUrl, world))
      && indexer.bridgeCalls == old(indexer.bridgeCalls) + [ToValues(args[1..])]
      && indexer.bridgeFile == Some(Page(ItemList(args[1..]), Cards(args[1..], world.searchParamV)))
      && indexer.sitemapFile == Some(BridgeSitemap(indexer.config.siteUrl, world.now))
      && indexer.history == [outcome.record] + old(indexer.history)
      && indexer.historyFile == Parsed(Retained(indexer.history))
      && indexer.sent == old(indexer.sent)
         + Requests(old(indexer.auth), indexer.config.siteUrl, IndexNowKey(world.indexNowKey), bridgeUrl, world)
    ensures indexer.auth == old(indexer.auth)
    ensures Dispatch(args).UsageError? ==>
      outcome == Exited(Dispatch(args).message, 1) && unchanged(indexer)
    ensures Dispatch(args).Help? ==> outcome == PrintedHelp && unchanged(indexer)
  {
    match Dispatch(args) {
      case Submit(url) =>
        var r := indexer.SubmitUrl(url, world);
        outcome := Submitted(r);
      case Boost(urls) =>
        var values := ToValues(urls);
        BoostInputsAreStrings(urls);
        var c := indexer.GenerateBridgePage(values, world);
        match c {
          case Normal(r) => outcome := BridgeSubmitted(r);
          case Throw(e) => assert false; outcome := PrintedHelp;
        }
      case UsageError(message, code) =>
        outcome := Exited(message, code);
      case Help =>
        outcome := PrintedHelp;
    }
  }
}
