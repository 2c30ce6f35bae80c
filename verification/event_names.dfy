/** The four socket event names `_init` derives from the prefix and the role. */
module EventNames {
  import opened JsValues

  /** The prefix used when the options do not give one. */
  const DefaultPrefix: string := "webApi"

  /** `Object.assign({ prefix: 'webApi' }, options).prefix` */
  function PrefixOf(option: Option<string>): string {
    match option
    case Some(p) => p
    case None => DefaultPrefix
  }

  /** `_eventName(isServer, cmd)`: `<prefix>|s|c`, `<prefix>|c|r` and so on. */
  function EventName(prefix: string, isServer: bool, cmd: bool): (r: string)
    ensures |r| == |prefix| + 4 && r[..|prefix|] == prefix
    ensures r[|prefix|] == '|' && r[|prefix| + 2] == '|'
    ensures r[|prefix| + 1] == (if isServer then 's' else 'c')
    ensures r[|prefix| + 3] == (if cmd then 'c' else 'r')
  {
    prefix + "|" + (if isServer then "s" else "c") + "|" + (if cmd then "c" else "r")
  }

  datatype Names = Names(
    cmdToTarget: string,
    cmdToTargetRet: string,
    cmdFromTarget: string,
    cmdFromTargetRet: string)

  /** The names one endpoint uses: it sends commands and listens for their returns under
      its own role's tag, and listens for commands and sends returns under the other's. */
  function NamesFor(prefix: string, isServer: bool): Names {
    Names(
      EventName(prefix, isServer, true),
      EventName(prefix, isServer, false),
      EventName(prefix, !isServer, true),
      EventName(prefix, !isServer, false))
  }

  /** Two names under one prefix are equal only when role and kind are equal. */
  lemma EventNameInjective(prefix: string, isServer: bool, cmd: bool, isServer': bool, cmd': bool)
    requires EventName(prefix, isServer, cmd) == EventName(prefix, isServer', cmd')
    ensures isServer == isServer' && cmd == cmd'
  {
  }

  /** The four names of one endpoint are pairwise distinct. */
  lemma NamesDistinct(prefix: string, isServer: bool)
    ensures var n := NamesFor(prefix, isServer);
      && n.cmdToTarget != n.cmdToTargetRet
      && n.cmdToTarget != n.cmdFromTarget
      && n.cmdToTarget != n.cmdFromTargetRet
      && n.cmdToTargetRet != n.cmdFromTarget
      && n.cmdToTargetRet != n.cmdFromTargetRet
      && n.cmdFromTarget != n.cmdFromTargetRet
  {
  }

  /** Under one prefix, what one role sends the other role listens for, in both directions. */
  lemma NamesMirror(prefix: string, isServer: bool)
    ensures var mine, theirs := NamesFor(prefix, isServer), NamesFor(prefix, !isServer);
      && mine.cmdToTarget == theirs.cmdFromTarget
      && mine.cmdToTargetRet == theirs.cmdFromTargetRet
      && mine.cmdFromTarget == theirs.cmdToTarget
      && mine.cmdFromTargetRet == theirs.cmdToTargetRet
  {
  }

  /** A client and a server never send commands under the same name, nor listen for
      commands, or for returns, under the same name. */
  lemma RolesNeverCollide(prefix: string)
    ensures NamesFor(prefix, false).cmdToTarget != NamesFor(prefix, true).cmdToTarget
    ensures NamesFor(prefix, false).cmdFromTarget != NamesFor(prefix, true).cmdFromTarget
    ensures NamesFor(prefix, false).cmdToTargetRet != NamesFor(prefix, true).cmdToTargetRet
  {
  }
}
