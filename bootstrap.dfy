/** The init container that seeds the role's claim with the initial content
    of the persisted directories, and the shell command it runs. */
module Bootstrap {
  import opened Wrappers
  import opened Strings
  import opened Paths
  import opened ClusterTypes
  import opened KubeTypes
  import Volumes

  /** No segment of any of the paths holds a blank, so each renders as one
      shell word. */
  predicate NoBlanks(ps: seq<Path>) {
    forall i, j :: 0 <= i < |ps| && 0 <= j < |ps[i]| ==> ' ' !in ps[i][j]
  }

  predicate NoBlank(p: Path) {
    forall j :: 0 <= j < |p| ==> ' ' !in p[j]
  }

  /** genrateRsyncInstalledCmd: probes for an rsync that accepts every
      option used below, leaving the probe's exit status in
      RSYNC_CHECK_STATUS. */
  const RsyncInstalledCmd: string :=
    "rsync --log-file=" + "./rsync-check-status-dummy.log" + CopyOptions + "--version;" + " RSYNC_CHECK_STATUS=$?;"

  /** The copy options the probe and the rsync copy share. */
  const CopyOptions: string := " --info=progress2 --relative -ax "

  /** The persisted directories as the space-separated operand list. */
  function Operands(persistDirs: seq<Path>): string {
    Join(RenderAll(persistDirs), " ")
  }

  /** A path of the init container's view of the claim, which is mounted
      at /mnt. */
  function UnderMnt(p: Path): string {
    "/mnt" + Render(p)
  }

  /** The first half of generateRsyncCmd: create the log file's directory
      on the claim, or rsync could not create the log file. */
  function MkdirLogDir(c: Consts): string {
    "mkdir -p " + UnderMnt(Parent(c.kubedirectorInitLogs))
  }

  /** generateRsyncCmd: create the log directory on the claim, then copy
      the directories with their full paths onto the claim, logging to the
      claim and sending the progress output to a file on the claim. */
  function RsyncCmd(c: Consts, persistDirs: seq<Path>): string {
    MkdirLogDir(c) + "; rsync --log-file=" + UnderMnt(c.kubedirectorInitLogs)
      + CopyOptions + Operands(persistDirs)
      + " /mnt > " + UnderMnt(c.kubedirectorInitProgressBar) + ";"
  }

  /** generateCpCmd: the same copy with cp, without progress output. */
  function CpCmd(persistDirs: seq<Path>): string {
    "cp --parent -ax " + Operands(persistDirs) + " /mnt"
  }

  /** The sentinel file test and the command that creates it. */
  function CopyCondition(c: Consts): string {
    "! [ -f " + UnderMnt(c.kubedirectorInit) + " ]"
  }

  function TouchSentinel(c: Consts): string {
    "touch " + UnderMnt(c.kubedirectorInit) + ";"
  }

  /** generateInitContainerLaunch: probe for rsync; unless the sentinel file
      is already on the claim, run the group `[ status != 0 ] && (cp) ||
      (rsync)`; then create the sentinel. */
  function InitContainerLaunch(c: Consts, persistDirs: seq<Path>): string {
    LaunchBody(c, persistDirs) + ")); " + TouchSentinel(c)
  }

  /** The test of the probe's status that guards the cp branch. */
  const StatusTest: string := "[ ${RSYNC_CHECK_STATUS} != 0 ]"

  /** The launch command up to the end of the rsync branch. */
  function LaunchBody(c: Consts, persistDirs: seq<Path>): string {
    RsyncInstalledCmd + " " + CopyCondition(c)
      + " && ( " + StatusTest + " && (" + CpCmd(persistDirs)
      + ") || (" + RsyncCmd(c, persistDirs)
  }

  predicate HasPrefix(s: string, prefix: string) {
    |prefix| <= |s| && s[..|prefix|] == prefix
  }

  predicate HasSuffix(s: string, suffix: string) {
    |suffix| <= |s| && s[|s| - |suffix|..] == suffix
  }

  lemma PrefixExtend(s: string, p: string, t: string)
    requires HasPrefix(s, p)
    ensures HasPrefix(s + t, p)
  {
    assert (s + t)[..|p|] == s[..|p|];
  }

  lemma SuffixOfAppend(s: string, t: string)
    ensures HasSuffix(s + t, t)
  {
    assert (s + t)[|s|..] == t;
  }

  predicate InfixAt(s: string, t: string, i: int) {
    0 <= i <= |s| - |t| && s[i..i + |t|] == t
  }

  ghost predicate HasInfix(s: string, t: string) {
    exists i :: InfixAt(s, t, i)
  }

  lemma InfixSelf(t: string)
    ensures InfixAt(t, t, 0)
  {
    assert t[0..|t|] == t;
  }

  lemma InfixAppend(s: string, t: string, i: int, u: string)
    requires InfixAt(s, t, i)
    ensures InfixAt(s + u, t, i)
  {
    assert (s + u)[i..i + |t|] == s[i..i + |t|];
  }

  lemma InfixPrepend(u: string, s: string, t: string, i: int)
    requires InfixAt(s, t, i)
    ensures InfixAt(u + s, t, |u| + i)
  {
    assert (u + s)[|u| + i..|u| + i + |t|] == s[i..i + |t|];
  }

  /** The probe runs rsync with --log-file and the copy options the rsync
      copy uses, only asking for --version, and ends by storing its exit
      status. */
  lemma ProbeUsesCopyOptions()
    ensures HasPrefix(RsyncInstalledCmd, "rsync --log-file=")
    ensures HasInfix(RsyncInstalledCmd, CopyOptions + "--version;")
    ensures HasSuffix(RsyncInstalledCmd, " RSYNC_CHECK_STATUS=$?;")
  {
    var flag, logName := "rsync --log-file=", "./rsync-check-status-dummy.log";
    var version, status := "--version;", " RSYNC_CHECK_STATUS=$?;";
    assert flag[..|flag|] == flag;
    PrefixExtend(flag, flag, logName);
    PrefixExtend(flag + logName, flag, CopyOptions);
    PrefixExtend(flag + logName + CopyOptions, flag, version);
    PrefixExtend(flag + logName + CopyOptions + version, flag, status);
    InfixSelf(CopyOptions + version);
    InfixPrepend(flag + logName, CopyOptions + version, CopyOptions + version, 0);
    InfixAppend(flag + logName + (CopyOptions + version), CopyOptions + version, |flag + logName|, status);
    assert flag + logName + (CopyOptions + version) + status == RsyncInstalledCmd;
    SuffixOfAppend(flag + logName + CopyOptions + version, status);
  }

  /** The rsync copy, after creating its log directory, runs rsync with
      its log file on the claim and the copy options the probe checked. */
  lemma RsyncCmdUsesCopyOptions(c: Consts, persistDirs: seq<Path>)
    ensures InfixAt(RsyncCmd(c, persistDirs),
      "; rsync --log-file=" + UnderMnt(c.kubedirectorInitLogs) + CopyOptions, |MkdirLogDir(c)|)
  {
    var m, lf, lg := MkdirLogDir(c), "; rsync --log-file=", UnderMnt(c.kubedirectorInitLogs);
    var call := lf + lg + CopyOptions;
    var ops, mnt, pb := Operands(persistDirs), " /mnt > ", UnderMnt(c.kubedirectorInitProgressBar);
    Assoc(m, lf, lg);
    Assoc(m, lf + lg, CopyOptions);
    InfixSelf(call);
    InfixPrepend(m, call, call, 0);
    InfixAppend(m + call, call, |m|, ops);
    InfixAppend(m + call + ops, call, |m|, mnt);
    InfixAppend(m + call + ops + mnt, call, |m|, pb);
    InfixAppend(m + call + ops + mnt + pb, call, |m|, ";");
  }

  /** The launch command is exactly three pieces: the probe with the
      sentinel test; the copy group joined to that test by `&&`, in which
      the status test guards `CpCmd` with `&&` and `RsyncCmd` follows after
      `||`; and the touch of the sentinel. Nothing else is in it. */
  lemma LaunchIsThreePieces(c: Consts, persistDirs: seq<Path>)
    ensures InitContainerLaunch(c, persistDirs)
      == (RsyncInstalledCmd + " " + CopyCondition(c))
      + (" && ( " + StatusTest + " && (" + CpCmd(persistDirs) + ") || (" + RsyncCmd(c, persistDirs) + "))")
      + ("; " + TouchSentinel(c))
  {
    var head := RsyncInstalledCmd + " " + CopyCondition(c);
    var cp, r := CpCmd(persistDirs), RsyncCmd(c, persistDirs);
    var b1 := " && ( ";
    var b2 := b1 + StatusTest;
    var b3 := b2 + " && (";
    var b4 := b3 + cp;
    var b5 := b4 + ") || (";
    var b6 := b5 + r;
    Assoc(head, b1, StatusTest);
    Assoc(head, b2, " && (");
    Assoc(head, b3, cp);
    Assoc(head, b4, ") || (");
    Assoc(head, b5, r);
    assert LaunchBody(c, persistDirs) == head + b6;
    assert ")); " == "))" + "; ";
    Assoc(head + b6, "))", "; ");
    Assoc(head + b6 + "))", "; ", TouchSentinel(c));
    Assoc(head, b6, "))");
  }

  /** Right after the probe and the sentinel test comes the copy group. */
  lemma LaunchCopiesByProbeStatus(c: Consts, persistDirs: seq<Path>)
    ensures InfixAt(InitContainerLaunch(c, persistDirs),
      " && ( " + StatusTest + " && (" + CpCmd(persistDirs) + ") || (" + RsyncCmd(c, persistDirs) + "))",
      |RsyncInstalledCmd + " " + CopyCondition(c)|)
  {
    var head := RsyncInstalledCmd + " " + CopyCondition(c);
    var branches := " && ( " + StatusTest + " && (" + CpCmd(persistDirs) + ") || (" + RsyncCmd(c, persistDirs) + "))";
    LaunchIsThreePieces(c, persistDirs);
    InfixSelf(branches);
    InfixPrepend(head, branches, branches, 0);
    InfixAppend(head + branches, branches, |head|, "; " + TouchSentinel(c));
  }

  /** The launch command runs the rsync probe first, tests for the sentinel
      file right after it, and ends by creating that same file, so a
      restarted init container never copies twice. */
  lemma LaunchGuardsAndTouchesSentinel(c: Consts, persistDirs: seq<Path>)
    ensures HasPrefix(InitContainerLaunch(c, persistDirs), RsyncInstalledCmd + " " + CopyCondition(c))
    ensures HasSuffix(InitContainerLaunch(c, persistDirs), "; " + TouchSentinel(c))
  {
    var head := RsyncInstalledCmd + " " + CopyCondition(c);
    var s0 := head + " && ( " + StatusTest;
    var s1 := s0 + " && (";
    var s2 := s1 + CpCmd(persistDirs);
    var s3 := s2 + ") || (";
    var body := s3 + RsyncCmd(c, persistDirs);
    assert head[..|head|] == head;
    PrefixExtend(head, head, " && ( ");
    PrefixExtend(head + " && ( ", head, StatusTest);
    PrefixExtend(s0, head, " && (");
    PrefixExtend(s1, head, CpCmd(persistDirs));
    PrefixExtend(s2, head, ") || (");
    PrefixExtend(s3, head, RsyncCmd(c, persistDirs));
    PrefixExtend(body, head, ")); ");
    PrefixExtend(body + ")); ", head, TouchSentinel(c));
    var t := TouchSentinel(c);
    assert ")); " == "))" + "; ";
    Assoc(body, "))", "; ");
    Assoc(body + "))", "; ", t);
    SuffixOfAppend(body + "))", "; " + t);
  }

  /** A word followed by a blank contributes exactly itself. */
  lemma WordsCons(w: string, rest: string)
    requires IsWord(w)
    ensures Words(w + " " + rest) == [w] + Words(rest)
  {
    WordsAtBlank(w, rest);
    WordIsOneWord(w);
  }

  lemma Assoc(a: string, b: string, c: string)
    ensures a + b + c == a + (b + c)
  {
  }

  lemma UnderMntIsWord(p: Path, tail: string)
    requires NoBlank(p) && ' ' !in tail
    ensures IsWord(UnderMnt(p) + tail)
  {
    RenderIsWord(p);
  }

  lemma {:induction false} OperandsWords(persistDirs: seq<Path>)
    requires NoBlanks(persistDirs)
    ensures Words(Operands(persistDirs)) == RenderAll(persistDirs)
  {
    var rs := RenderAll(persistDirs);
    forall i | 0 <= i < |rs| ensures IsWord(rs[i]) {
      RenderIsWord(persistDirs[i]);
    }
    WordsOfJoin(rs);
  }

  lemma CpShape(ops: string)
    ensures "cp --parent -ax " + ops + " /mnt" == "cp" + " " + ("--parent" + " " + ("-ax" + " " + (ops + " " + "/mnt")))
  {
    var t := ops + " " + "/mnt";
    assert " /mnt" == " " + "/mnt";
    Assoc(ops, " ", "/mnt");
    assert "cp --parent -ax " == "cp" + " " + ("--parent" + " " + ("-ax" + " "));
    Assoc("cp --parent -ax ", ops, " /mnt");
    Assoc("-ax", " ", t);
    Assoc("-ax" + " ", ops, " /mnt");
  }

  /** Three words, a blank before each, then the rest. */
  lemma Words3(a: string, b: string, c: string, rest: string)
    requires IsWord(a) && IsWord(b) && IsWord(c)
    ensures Words(a + " " + (b + " " + (c + " " + rest))) == [a, b, c] + Words(rest)
  {
    WordsCons(a, b + " " + (c + " " + rest));
    WordsCons(b, c + " " + rest);
    WordsCons(c, rest);
  }

  /** Operands between two word lists. */
  lemma WordsAround(a: string, b: string, c: string, ops: string, d: string)
    requires IsWord(a) && IsWord(b) && IsWord(c) && IsWord(d)
    ensures Words(a + " " + (b + " " + (c + " " + (ops + " " + d)))) == [a, b, c] + Words(ops) + [d]
  {
    Words3(a, b, c, ops + " " + d);
    WordsAtBlank(ops, d);
    WordIsOneWord(d);
  }

  lemma CpWords(ops: string)
    ensures Words("cp" + " " + ("--parent" + " " + ("-ax" + " " + (ops + " " + "/mnt"))))
      == ["cp", "--parent", "-ax"] + Words(ops) + ["/mnt"]
  {
    WordsAround("cp", "--parent", "-ax", ops, "/mnt");
  }

  /** The cp command splits into the command, its two options, one operand
      per persisted directory in order, and the destination /mnt. */
  lemma CpCmdWords(persistDirs: seq<Path>)
    requires NoBlanks(persistDirs)
    ensures Words(CpCmd(persistDirs)) == ["cp", "--parent", "-ax"] + RenderAll(persistDirs) + ["/mnt"]
  {
    CpShape(Operands(persistDirs));
    CpWords(Operands(persistDirs));
    OperandsWords(persistDirs);
  }

  /** generateRsyncCmd up to its operand list: the log directory and the
      options; none of it depends on the persisted directories. */
  function RsyncHead(c: Consts): string {
    MkdirLogDir(c) + "; rsync --log-file=" + UnderMnt(c.kubedirectorInitLogs) + " --info=progress2 --relative -ax"
  }

  lemma LitMnt(t: string)
    ensures " /mnt > " + t == " " + ("/mnt" + " " + (">" + " " + t))
  {
    assert " /mnt > " == " " + "/mnt" + " " + ">" + " ";
  }

  lemma Regroup(h: string, p: string, o: string, m: string, t: string)
    ensures h + (p + " ") + o + m + t == h + p + " " + (o + (m + t))
  {
    Assoc(h, p, " ");
    Assoc(h + p + " ", o, m);
    Assoc(h + p + " ", o + m, t);
    Assoc(o, m, t);
  }

  /** generateRsyncCmd's text as its head, the operands and the tail. */
  lemma RsyncSplit(c: Consts, persistDirs: seq<Path>)
    ensures RsyncCmd(c, persistDirs) == RsyncHead(c) + " " + (Operands(persistDirs) + " "
      + ("/mnt" + " " + (">" + " " + (UnderMnt(c.kubedirectorInitProgressBar) + ";"))))
  {
    var h := MkdirLogDir(c) + "; rsync --log-file=" + UnderMnt(c.kubedirectorInitLogs);
    var o, t := Operands(persistDirs), UnderMnt(c.kubedirectorInitProgressBar) + ";";
    assert " --info=progress2 --relative -ax " == " --info=progress2 --relative -ax" + " ";
    Regroup(h, " --info=progress2 --relative -ax", o, " /mnt > ", UnderMnt(c.kubedirectorInitProgressBar) + ";");
    Assoc(" /mnt > ", UnderMnt(c.kubedirectorInitProgressBar), ";");
    LitMnt(t);
    Assoc(o, " ", "/mnt" + " " + (">" + " " + t));
  }

  /** Three words separated by blanks. */
  lemma ThreeWords(x1: string, x2: string, x3: string)
    requires IsWord(x1) && IsWord(x2) && IsWord(x3)
    ensures Words(x1 + " " + (x2 + " " + x3)) == [x1, x2, x3]
  {
    WordsCons(x1, x2 + " " + x3);
    WordsCons(x2, x3);
    WordIsOneWord(x3);
  }

  /** Operands between a head and three final words. */
  lemma OperandsBetween(h: string, ops: string, x1: string, x2: string, x3: string)
    requires IsWord(x1) && IsWord(x2) && IsWord(x3)
    ensures Words(h + " " + (ops + " " + (x1 + " " + (x2 + " " + x3)))) == Words(h) + Words(ops) + [x1, x2, x3]
  {
    var t := x1 + " " + (x2 + " " + x3);
    WordsAtBlank(h, ops + " " + t);
    WordsAtBlank(ops, t);
    ThreeWords(x1, x2, x3);
  }

  /** The rsync command splits into its head, which does not depend on the
      persisted directories, then one operand per persisted directory in
      order, the destination /mnt, and the redirection of the progress
      output to a file on the claim. */
  lemma RsyncCmdWords(c: Consts, persistDirs: seq<Path>)
    requires NoBlanks(persistDirs) && NoBlank(c.kubedirectorInitProgressBar)
    ensures Words(RsyncCmd(c, persistDirs))
      == Words(RsyncHead(c)) + RenderAll(persistDirs) + ["/mnt", ">", UnderMnt(c.kubedirectorInitProgressBar) + ";"]
  {
    UnderMntIsWord(c.kubedirectorInitProgressBar, ";");
    RsyncSplit(c, persistDirs);
    OperandsBetween(RsyncHead(c), Operands(persistDirs), "/mnt", ">", UnderMnt(c.kubedirectorInitProgressBar) + ";");
    OperandsWords(persistDirs);
  }

  /** getInitContainer: none when the role has no storage; otherwise one
      container that runs the launch command under bash as root, from the
      role's image and with the role's resources, with the claim at /mnt. */
  function GetInitContainer(c: Consts, role: Role, pvcNamePrefix: string, imageID: string, persistDirs: seq<Path>)
    : (initContainer: seq<Container>)
    ensures role.storage.None? <==> initContainer == []
    ensures role.storage.Some? ==>
      && |initContainer| == 1
      && initContainer[0].name == c.initContainerName
      && initContainer[0].image == imageID
      && initContainer[0].command == ["/bin/bash"]
      && initContainer[0].args == ["-c", InitContainerLaunch(c, persistDirs)]
      && initContainer[0].resources == role.resources
      && initContainer[0].securityContext == Some(SecurityContext(Some(0), None))
      && initContainer[0].volumeMounts == Volumes.InitVolumeMounts(pvcNamePrefix)
  {
    if role.storage.None? then []
    else
      var rootUID := 0;
      [Container(
        c.initContainerName, imageID, ["/bin/bash"], ["-c", InitContainerLaunch(c, persistDirs)],
        role.resources, [], Volumes.InitVolumeMounts(pvcNamePrefix), [],
        Some(SecurityContext(Some(rootUID), None)), [], false, false)]
  }
}
