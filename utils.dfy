/**
 * Presentation helpers: status-to-icon mappings (total over each closed
 * enumeration), region flags, the privacy accessory, the split of a registry
 * image reference, and the fenced markdown of a log line.
 *
 * A status value is an enumeration member whose wire text is defined with the
 * types (not part of this model); the presentation functions receive that
 * text beside the member.
 */
module Utils {
  import opened Wrappers
  import opened Types
  import JsString

  datatype IconSource = QuestionMarkCircle | Stop | CircleProgress100 | CircleProgress25 | Lock | LockUnlocked

  datatype Color = Red | Green | Blue

  datatype Icon = Icon(source: IconSource, tintColor: Option<Color>)

  /** An icon with its tooltip, as shown beside a list item. */
  datatype StatusPresentation = StatusPresentation(value: Icon, tooltip: string)

  datatype Accessory = Accessory(icon: Icon, tooltip: string)

  const UNKNOWN_ICON := Icon(QuestionMarkCircle, None)
  const RED_FULL := Icon(CircleProgress100, Some(Red))
  const GREEN_FULL := Icon(CircleProgress100, Some(Green))
  const BLUE_FULL := Icon(CircleProgress100, Some(Blue))

  /** The switch of `getContainerStatusIcon`: each status gets one icon, and these share none. */
  function ContainerStatusIcon(status: ContainerStatus): (r: Icon)
    ensures r == GREEN_FULL <==> status == ContainerReady
    ensures r == RED_FULL <==> status == ContainerError
    ensures r.tintColor == None <==> status == ContainerUnknown
    ensures r == UNKNOWN_ICON <==> status == ContainerUnknown
  {
    match status
    case ContainerUnknown => UNKNOWN_ICON
    case ContainerDeleting => Icon(Stop, Some(Red))
    case ContainerError => RED_FULL
    case ContainerLocked => Icon(Lock, Some(Green))
    case ContainerCreating => Icon(CircleProgress25, Some(Green))
    case ContainerPending => BLUE_FULL
    case ContainerReady => GREEN_FULL
  }

  /** `getContainerStatusIcon`: the icon of the status and its text capitalised. */
  function ContainerStatusPresentation(status: ContainerStatus, text: string): (r: StatusPresentation)
    requires text != ""
    ensures r.value == ContainerStatusIcon(status)
    ensures |r.tooltip| == |text| && r.tooltip[1..] == text[1..] && r.tooltip[0] == JsString.UpperChar(text[0])
  {
    StatusPresentation(ContainerStatusIcon(status), JsString.Capitalize(text))
  }

  /**
   * The switch of `getInstanceStateIcon`: both stopped states show the same
   * red icon, and only they do; running alone is green.
   */
  function InstanceStateIcon(state: InstanceState): (r: Icon)
    ensures r == RED_FULL <==> state == Stopped || state == StoppedInPlace
    ensures r == GREEN_FULL <==> state == Running
  {
    match state
    case Stopped | StoppedInPlace => RED_FULL
    case Starting => Icon(CircleProgress25, Some(Blue))
    case Running => GREEN_FULL
    case Stopping => Icon(Stop, Some(Red))
    case InstanceLocked => Icon(Lock, Some(Red))
  }

  /** `getInstanceStateIcon`: the icon of the state and its text capitalised. */
  function InstanceStatePresentation(state: InstanceState, text: string): (r: StatusPresentation)
    requires text != ""
    ensures r.value == InstanceStateIcon(state)
    ensures |r.tooltip| == |text| && r.tooltip[1..] == text[1..] && r.tooltip[0] == JsString.UpperChar(text[0])
  {
    StatusPresentation(InstanceStateIcon(state), JsString.Capitalize(text))
  }

  predicate IsDatabaseInProgress(status: DatabaseStatus)
  {
    status in {DatabaseAutohealing, DatabaseBackuping, DatabaseConfiguring,
               DatabaseInitializing, DatabaseProvisioning, DatabaseSnapshotting}
  }

  /**
   * The switch of `getDatabaseStatusIcon`: the six in-progress statuses share
   * the blue icon, disk-full and error share the red one.
   */
  function DatabaseStatusIcon(status: DatabaseStatus): (r: Icon)
    ensures r == BLUE_FULL <==> IsDatabaseInProgress(status)
    ensures r == RED_FULL <==> status == DatabaseDiskFull || status == DatabaseError
    ensures r == GREEN_FULL <==> status == DatabaseReady
    ensures r.tintColor == None <==> status == DatabaseUnknown
    ensures r == UNKNOWN_ICON <==> status == DatabaseUnknown
  {
    match status
    case DatabaseUnknown => UNKNOWN_ICON
    case DatabaseAutohealing | DatabaseBackuping | DatabaseConfiguring
       | DatabaseInitializing | DatabaseProvisioning | DatabaseSnapshotting => BLUE_FULL
    case DatabaseLocked => Icon(Lock, Some(Red))
    case DatabaseDiskFull => RED_FULL
    case DatabaseError => RED_FULL
    case DatabaseRestarting => Icon(CircleProgress25, Some(Blue))
    case DatabaseReady => GREEN_FULL
    case DatabaseDeleting => Icon(Stop, Some(Red))
  }

  /** `getDatabaseStatusIcon`: the icon of the status and its text capitalised. */
  function DatabaseStatusPresentation(status: DatabaseStatus, text: string): (r: StatusPresentation)
    requires text != ""
    ensures r.value == DatabaseStatusIcon(status)
    ensures |r.tooltip| == |text| && r.tooltip[1..] == text[1..] && r.tooltip[0] == JsString.UpperChar(text[0])
  {
    StatusPresentation(DatabaseStatusIcon(status), JsString.Capitalize(text))
  }

  /** The switch of `getRedisClusterStatusIcon`: error and suspended share the red icon, and only they do. */
  function RedisClusterStatusIcon(status: RedisClusterStatus): (r: Icon)
    ensures r == RED_FULL <==> status == RedisError || status == RedisSuspended
    ensures r == BLUE_FULL <==>
              status in {RedisAutohealing, RedisConfiguring, RedisInitializing, RedisProvisioning}
    ensures r.tintColor == None <==> status == RedisUnknown
    ensures r == UNKNOWN_ICON <==> status == RedisUnknown
  {
    match status
    case RedisUnknown => UNKNOWN_ICON
    case RedisAutohealing | RedisConfiguring | RedisInitializing | RedisProvisioning => BLUE_FULL
    case RedisLocked => Icon(Lock, Some(Red))
    case RedisError | RedisSuspended => RED_FULL
    case RedisReady => GREEN_FULL
    case RedisDeleting => Icon(Stop, Some(Red))
  }

  /** `getRedisClusterStatusIcon`: the icon of the status and its text capitalised. */
  function RedisClusterStatusPresentation(status: RedisClusterStatus, text: string): (r: StatusPresentation)
    requires text != ""
    ensures r.value == RedisClusterStatusIcon(status)
    ensures |r.tooltip| == |text| && r.tooltip[1..] == text[1..] && r.tooltip[0] == JsString.UpperChar(text[0])
  {
    StatusPresentation(RedisClusterStatusIcon(status), JsString.Capitalize(text))
  }

  /** `getCountryImage`: the flag file named by the region's first two letters, lower-cased. */
  function CountryImage(region: string): (r: string)
    ensures var n := if |region| < 2 then |region| else 2;
            && |r| == n + 4
            && r[n..] == ".svg"
            && forall i :: 0 <= i < n ==> r[i] == JsString.LowerChar(region[i])
  {
    JsString.Substring(JsString.ToLower(region), 0, 2) + ".svg"
  }

  /** Everything past the first two characters is ignored: a zone shows its region's flag. */
  lemma CountryImageOfLongerName(region: string, suffix: string)
    requires |region| >= 2
    ensures CountryImage(region + suffix) == CountryImage(region)
  {
    var a, b := CountryImage(region + suffix), CountryImage(region);
    assert |a| == |b| == 6;
    forall i | 0 <= i < 6
      ensures a[i] == b[i]
    {
      if i >= 2 {
        assert a[2..][i - 2] == b[2..][i - 2];
      }
    }
  }

  /** The fixture's zone and region show the French flag. */
  lemma CountryImageExamples()
    ensures CountryImage("fr-par-1") == CountryImage("fr-par") == "fr.svg"
  {
    CountryImageOfLongerName("fr-par", "-1");
    assert "fr-par" + "-1" == "fr-par-1";
    var r := CountryImage("fr-par");
    assert r[0] == 'f' && r[1] == 'r';
    assert r == r[..2] + r[2..];
  }

  /** `getPrivacyAccessory`. */
  function PrivacyAccessory(privacy: Privacy): (r: Accessory)
    ensures r.tooltip == match privacy
                         case Public => "Public"
                         case Private => "Private"
                         case UnknownPrivacy => "Unknown"
  {
    match privacy
    case Public => Accessory(Icon(LockUnlocked, Some(Green)), "Public")
    case Private => Accessory(Icon(Lock, None), "Private")
    case UnknownPrivacy => Accessory(UNKNOWN_ICON, "Unknown")
  }

  /** Each privacy setting shows an accessory of its own. */
  lemma PrivacyAccessoryDistinct(p: Privacy, q: Privacy)
    ensures PrivacyAccessory(p) == PrivacyAccessory(q) <==> p == q
  {
  }

  /** `getRegistryName`: everything before the last `/`, or "" when there is none. */
  function RegistryName(container: Container): (r: string)
    ensures r <= container.registryImage
    ensures '/' !in container.registryImage ==> r == ""
    ensures '/' in container.registryImage ==>
              |r| < |container.registryImage| && container.registryImage[|r|] == '/' &&
              '/' !in container.registryImage[|r| + 1..]
  {
    var image := container.registryImage;
    var k := JsString.LastIndexOf(image, '/');
    assert k >= 0 <==> '/' in image by { JsString.LastIndexOfFound(image, '/'); }
    JsString.Substring(image, 0, k)
  }

  /** `getImageName`: the last piece of the reference split at `/`. */
  function ImageName(container: Container): (r: string)
    ensures '/' !in r
    ensures |r| <= |container.registryImage| && r == container.registryImage[|container.registryImage| - |r|..]
    ensures r == container.registryImage[JsString.LastIndexOf(container.registryImage, '/') + 1..]
  {
    var parts := JsString.Split(container.registryImage, '/');
    assert parts[|parts| - 1] == container.registryImage[JsString.LastIndexOf(container.registryImage, '/') + 1..] by {
      JsString.SplitLast(container.registryImage, '/');
    }
    parts[|parts| - 1]
  }

  /** The two names split the reference at its last `/`, which they put back together. */
  lemma RegistryImageSplit(container: Container)
    ensures '/' !in ImageName(container)
    ensures var image := container.registryImage;
            if '/' in image then RegistryName(container) + "/" + ImageName(container) == image
            else RegistryName(container) == "" && ImageName(container) == image
  {
    var image := container.registryImage;
    JsString.SplitLast(image, '/');
    JsString.LastIndexOfFound(image, '/');
    var k := JsString.LastIndexOf(image, '/');
    if k >= 0 {
      assert image == image[..k] + "/" + image[k + 1..];
    }
  }

  /** Reading the names back: a registry and a slash-free image name joined by `/`. */
  lemma RegistryImageOfParts(container: Container, registry: string, image: string)
    requires '/' !in image
    requires container.registryImage == registry + "/" + image
    ensures RegistryName(container) == registry && ImageName(container) == image
  {
    var s := container.registryImage;
    assert s[|registry|] == '/';
    assert forall j :: |registry| < j < |s| ==> s[j] == image[j - |registry| - 1];
    JsString.LastIndexOfAt(s, '/', |registry|);
    JsString.SplitLast(s, '/');
    assert s[|registry| + 1..] == image;
  }

  /** The fence around a log line's body. */
  function Fenced(body: string): string
  {
    "```\n" + body + "\n```"
  }

  /** The body between the fences. */
  function Unfenced(markdown: string): string
    requires |markdown| >= 8
  {
    markdown[4..|markdown| - 4]
  }

  /**
   * `getLogMarkdown`, with `JSON.parse` a partial function and
   * `JSON.stringify(_, null, '\t')` an uninterpreted one: pretty-printed JSON
   * when the message parses, the message itself otherwise; never fails.
   */
  function LogMarkdown<J>(log: Log, parse: string -> Option<J>, stringify: J -> string): (r: string)
    ensures |r| >= 8 && r[..4] == "```\n" && r[|r| - 4..] == "\n```"
    ensures parse(log.message).Some? ==> Unfenced(r) == stringify(parse(log.message).value)
    ensures parse(log.message).None? ==> Unfenced(r) == log.message
  {
    match parse(log.message)
    case Some(json) => Fenced(stringify(json))
    case None => Fenced(log.message)
  }
}
