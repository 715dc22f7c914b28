/**
 * The campaign table of components/Campaigns/CampaignTable.tsx: the badge
 * variant per campaign status and the choice between the retry panel, the
 * skeleton rows, the empty row and one row per campaign.
 */
module CampaignTable {
  import opened Wrappers

  /** A campaign record as the list endpoint returns it. */
  datatype Campaign = Campaign(
    id: string,
    name: string,
    status: string,
    brandId: string,
    budget: real,
    dailyBudget: real,
    platforms: seq<string>,
    createdAt: string)

  /** The `{ campaigns, total }` envelope of the list endpoint. */
  datatype CampaignsResponse = CampaignsResponse(campaigns: seq<Campaign>, total: int)

  /** The badge variants the status column uses. */
  datatype BadgeVariant = Default | Secondary | Success

  function StatusVariant(status: string): (v: BadgeVariant)
    ensures status == "active" ==> v == Secondary
    ensures v == Default <==> status == "paused"
    ensures v == Success <==> status == "completed"
    // every other status, known or not, falls to the secondary badge
    ensures v == Secondary <==> status != "paused" && status != "completed"
  {
    if status == "active" then Secondary
    else if status == "paused" then Default
    else if status == "completed" then Success
    else Secondary
  }

  /** `data?.campaigns ?? []`: the list shown while the query holds no data is empty. */
  function DisplayedCampaigns(data: Option<CampaignsResponse>): (list: seq<Campaign>)
    ensures data.Some? ==> list == data.value.campaigns
    ensures data.None? ==> list == []
  {
    match data
    case Some(response) => response.campaigns
    case None => []
  }

  /** The page of a campaign, which both links of its row point to. */
  function CampaignHref(id: string): string {
    "/campaigns/" + id
  }

  /** One table row: the campaign it shows, the target of the name link, the
      status badge and the target of the View button. */
  datatype Row = Row(campaign: Campaign, nameHref: string, variant: BadgeVariant, viewHref: string)

  /** What the table body shows. */
  datatype TableBody =
    | SkeletonRows(count: nat)
    | EmptyRow(message: string)
    | CampaignRows(rows: seq<Row>)

  /** What the card content shows: the retry panel instead of the table, or the table. */
  datatype View =
    | RetryPanel(message: string)
    | Table(body: TableBody)

  const SkeletonCount: nat := 4
  const EmptyMessage: string := "No campaigns found"
  const FailureMessage: string := "Failed to load campaigns"

  function RowOf(c: Campaign): Row {
    Row(c, CampaignHref(c.id), StatusVariant(c.status), CampaignHref(c.id))
  }

  /** `campaigns.map(c => <TableRow/>)`: one row per campaign, in list order. */
  function CampaignRowsOf(campaigns: seq<Campaign>): (rows: seq<Row>)
    ensures |rows| == |campaigns|
    ensures forall i :: 0 <= i < |rows| ==>
      rows[i].campaign == campaigns[i]
      && rows[i].nameHref == "/campaigns/" + campaigns[i].id
      && rows[i].viewHref == "/campaigns/" + campaigns[i].id
      && rows[i].variant == StatusVariant(campaigns[i].status)
  {
    if campaigns == [] then [] else [RowOf(campaigns[0])] + CampaignRowsOf(campaigns[1..])
  }

  /** The nested ternaries of the render: error, then loading, then empty, then rows. */
  function SelectView(data: Option<CampaignsResponse>, isLoading: bool, hasError: bool): (v: View)
    // an error shows the retry panel and no table, whatever the loading or data state
    ensures v.RetryPanel? <==> hasError
    ensures hasError ==> v == RetryPanel("Failed to load campaigns")
    // no error and loading: exactly four skeleton rows
    ensures !hasError && isLoading ==> v == Table(SkeletonRows(4))
    // not loading with nothing to show: the single empty row
    ensures v == Table(EmptyRow("No campaigns found"))
            <==> !hasError && !isLoading && DisplayedCampaigns(data) == []
    // otherwise one row per displayed campaign, in order, each linking to its page
    ensures !hasError && !isLoading && DisplayedCampaigns(data) != [] ==>
      var list := DisplayedCampaigns(data);
      v == Table(CampaignRows(CampaignRowsOf(list))) && |v.body.rows| == |list|
      && forall i :: 0 <= i < |list| ==>
           v.body.rows[i].campaign == list[i] && v.body.rows[i].nameHref == "/campaigns/" + list[i].id
  {
    var campaigns := DisplayedCampaigns(data);
    if hasError then RetryPanel(FailureMessage)
    else if isLoading then Table(SkeletonRows(SkeletonCount))
    else if |campaigns| == 0 then Table(EmptyRow(EmptyMessage))
    else Table(CampaignRows(CampaignRowsOf(campaigns)))
  }

  /** The number of `<TableRow>`s in the table body. */
  function BodyRowCount(body: TableBody): nat {
    match body
    case SkeletonRows(n) => n
    case EmptyRow(_) => 1
    case CampaignRows(rows) => |rows|
  }

  /** Whenever the table is shown its body has at least one row, and exactly as
      many as the branch promises. */
  lemma TableBodyNeverEmpty(data: Option<CampaignsResponse>, isLoading: bool, hasError: bool)
    requires !hasError
    ensures var v := SelectView(data, isLoading, hasError);
            v.Table? && BodyRowCount(v.body) >= 1
            && BodyRowCount(v.body) == (if isLoading then 4
                                        else if DisplayedCampaigns(data) == [] then 1
                                        else |DisplayedCampaigns(data)|)
  {
  }
}
