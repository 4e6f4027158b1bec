/**
 * The command line's mapping from a parsed subcommand to the use-case
 * action: of the three optional selectors, the name wins over the path and
 * the path over the uuid.
 */
module Cli {
  import opened Wrappers
  import opened Repo
  import Uuids
  import Util
  import Usecase

  /** The optional selectors `enter` and `kill` accept. */
  datatype Args = Args(name: Option<string>, path: Option<string>, uuid: Option<Uuids.Uuid>)

  datatype SubCommand = Init | Enter(args: Args) | List | Kill(args: Args)

  /** `cli_subcommand_to_usecase_action`. */
  function CliSubcommandToUsecaseAction(subCommand: SubCommand): (a: Usecase.Action)
    ensures subCommand.Init? <==> a.Init?
    ensures subCommand.List? <==> a.List?
    ensures subCommand.Enter? <==> a.Enter?
    ensures subCommand.Kill? <==> a.Kill?
    ensures subCommand.Enter? || subCommand.Kill? ==>
      (a.specifier.None? <==> subCommand.args.name.None? && subCommand.args.path.None? && subCommand.args.uuid.None?)
  {
    match subCommand
    case Init => Usecase.Init
    case Enter(args) =>
      if args.name.Some? then Usecase.Enter(Some(Name(args.name.value)))
      else if args.path.Some? then Usecase.Enter(Some(Path(args.path.value)))
      else if args.uuid.Some? then Usecase.Enter(Some(Uuid(args.uuid.value)))
      else Usecase.Enter(None)
    case List => Usecase.List
    case Kill(args) =>
      if args.name.Some? then Usecase.Kill(Some(Name(args.name.value)))
      else if args.path.Some? then Usecase.Kill(Some(Path(args.path.value)))
      else if args.uuid.Some? then Usecase.Kill(Some(Uuid(args.uuid.value)))
      else Usecase.Kill(None)
  }

  /** Every selector given, as a specifier, in priority order. */
  function Candidates(args: Args): (c: seq<EnvSpecifier>)
    ensures |c| <= 3
    ensures c == [] <==> args.name.None? && args.path.None? && args.uuid.None?
  {
    Util.ElementsRoundTrip(args.name);
    Util.ElementsRoundTrip(args.path);
    Util.ElementsRoundTrip(args.uuid);
    var names := Util.Elements(args.name);
    var paths := Util.Elements(args.path);
    var ids := Util.Elements(args.uuid);
    seq(|names|, k requires 0 <= k < |names| => Name(names[k]))
      + seq(|paths|, k requires 0 <= k < |paths| => Path(paths[k]))
      + seq(|ids|, k requires 0 <= k < |ids| => Uuid(ids[k]))
  }

  /** The specifier the mapping picks is the first selector given, if any. */
  lemma SpecifierIsFirstCandidate(args: Args)
    ensures CliSubcommandToUsecaseAction(Enter(args)).specifier == Util.FirstOf(Candidates(args))
    ensures CliSubcommandToUsecaseAction(Kill(args)).specifier == Util.FirstOf(Candidates(args))
  {
  }

  /** A name wins whatever the path and the uuid hold. */
  lemma NameWins(name: string, path: Option<string>, uuid: Option<Uuids.Uuid>)
    ensures CliSubcommandToUsecaseAction(Enter(Args(Some(name), path, uuid))) == Usecase.Enter(Some(Name(name)))
    ensures CliSubcommandToUsecaseAction(Kill(Args(Some(name), path, uuid))) == Usecase.Kill(Some(Name(name)))
  {
  }

  /** A path is chosen only when no name is given, a uuid only when neither a name nor a path is. */
  lemma PriorityOrder(args: Args)
    ensures var s := CliSubcommandToUsecaseAction(Enter(args)).specifier;
      && (s.Some? && s.value.Path? ==> args.name.None? && args.path == Some(s.value.path))
      && (s.Some? && s.value.Uuid? ==> args.name.None? && args.path.None? && args.uuid == Some(s.value.uuid))
      && (s.None? <==> args.name.None? && args.path.None? && args.uuid.None?)
  {
  }

  /** `kill` maps its selectors exactly as `enter` does; `init` and `list` map to themselves. */
  lemma KillMapsLikeEnter(args: Args)
    ensures CliSubcommandToUsecaseAction(Kill(args)) == Usecase.Kill(CliSubcommandToUsecaseAction(Enter(args)).specifier)
    ensures CliSubcommandToUsecaseAction(Init) == Usecase.Init
    ensures CliSubcommandToUsecaseAction(List) == Usecase.List
  {
  }
}
