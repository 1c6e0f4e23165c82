/**
 * The jQuery dashboard's order badges: a case-sensitive `switch` from an
 * order status to a badge class and to an Indonesian label. The lemmas
 * relate them to the data table's case-insensitive status formatter.
 */
module DashboardStatus {
  import opened Common
  import DataTable

  /** The five order statuses the switches name. */
  const OrderStatuses: set<string> := {"new", "processing", "ready", "completed", "cancelled"}

  /** `getStatusClass(status)` */
  function GetStatusClass(status: string): (r: string)
    ensures status in OrderStatuses ==> r == DataTable.StatusClasses[status]
    ensures status !in OrderStatuses ==> r == DataTable.DefaultBadge
  {
    match status
    case "new" => "badge-info"
    case "processing" => "badge-warning"
    case "ready" => "badge-success"
    case "completed" => "badge-success"
    case "cancelled" => "badge-danger"
    case _ => "badge-info"
  }

  /** `getStatusText(status)`: any other status is returned as it is. */
  function GetStatusText(status: string): (r: string)
    ensures status in OrderStatuses ==> r == DataTable.StatusTexts[status]
    ensures status !in OrderStatuses ==> r == status
  {
    match status
    case "new" => "Baru"
    case "processing" => "Diproses"
    case "ready" => "Siap"
    case "completed" => "Selesai"
    case "cancelled" => "Dibatalkan"
    case _ => status
  }

  /** For the five lowercase statuses the dashboard and the data table show the same badge. */
  lemma AgreesWithStatusFormatter(status: string)
    requires status in OrderStatuses
    ensures GetStatusClass(status) == DataTable.BadgeClass(status)
    ensures GetStatusText(status) == DataTable.BadgeText(status)
  {
    LowerCaseUnchanged(status);
  }

  /** A differently-cased status falls to the default here, while the data table still recognises it. */
  lemma CaseSensitive(status: string)
    requires status !in OrderStatuses && ToLower(status) in OrderStatuses
    ensures GetStatusClass(status) == DataTable.DefaultBadge
    ensures GetStatusText(status) == status
    ensures DataTable.BadgeText(status) == DataTable.StatusTexts[ToLower(status)]
  {
  }

  /** "New" is shown as "New" on the dashboard and as "Baru" in the data table. */
  lemma CapitalisedNew(status: string)
    requires status == "New"
    ensures GetStatusText(status) == "New"
    ensures DataTable.BadgeText(status) == "Baru"
  {
    assert ToLower(status) == "new" by {
      assert LowerChar('N') == 'n';
    }
  }
}
