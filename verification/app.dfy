/** The application shell: which view is current, the bill and payment it was
    opened with, and the screen each view shows. */
module App {
  import opened Records

  /** The `data` a view change carries: nothing (`null`), a bill or a payment. */
  datatype ViewData = NoData | BillData(bill: BillView) | PaymentData(payment: PaymentRow)

  /** The component `renderCurrentView` shows, with the props it hands over. */
  datatype Screen =
    | DashboardScreen
    | BillFormScreen(bill: ViewData)
    | BillDetailsScreen(bill: ViewData)
    | PaymentFormScreen(bill: ViewData, payment: ViewData)

  /** `renderCurrentView()` over the four pieces of state. */
  function ScreenFor(view: string, selectedBill: ViewData, editingBill: ViewData, editingPayment: ViewData): Screen
  {
    if view == "new-bill" || view == "edit-bill" then BillFormScreen(editingBill)
    else if view == "bill-details" then BillDetailsScreen(selectedBill)
    else if view == "new-payment" || view == "edit-payment" then PaymentFormScreen(selectedBill, editingPayment)
    else DashboardScreen
  }

  /** Where a request for `view` with `data` lands, given the bill selected before:
      the bill details of the bill handed in, an empty or filled bill form, the
      payment form for the bill handed in or for the bill already selected, or the
      dashboard for every other view. */
  function Landing(view: string, data: ViewData, selectedBefore: ViewData): Screen
  {
    match view
    case "bill-details" => BillDetailsScreen(data)
    case "new-bill" => BillFormScreen(NoData)
    case "edit-bill" => BillFormScreen(data)
    case "new-payment" => PaymentFormScreen(data, NoData)
    case "edit-payment" => PaymentFormScreen(selectedBefore, data)
    case _ => DashboardScreen
  }

  /** The state of `App`: the current view and the three selections. */
  class Navigation {
    var currentView: string
    var selectedBill: ViewData
    var editingBill: ViewData
    var editingPayment: ViewData

    /** The dashboard with nothing selected. */
    constructor ()
      ensures currentView == "dashboard"
      ensures selectedBill == NoData && editingBill == NoData && editingPayment == NoData
      ensures RenderCurrentView() == DashboardScreen
    {
      currentView := "dashboard";
      selectedBill := NoData;
      editingBill := NoData;
      editingPayment := NoData;
    }

    function RenderCurrentView(): Screen
      reads this
    {
      ScreenFor(currentView, selectedBill, editingBill, editingPayment)
    }

    /** `handleViewChange(view, data)`: the view always becomes current; each known
        view sets or clears only the selections it names, and any other view
        clears all three. The screen shown next is `Landing`. */
    method HandleViewChange(view: string, data: ViewData)
      modifies this
      ensures currentView == view
      ensures view == "bill-details" ==>
        selectedBill == data && editingBill == old(editingBill) && editingPayment == old(editingPayment)
      ensures view == "new-bill" ==>
        selectedBill == old(selectedBill) && editingBill == NoData && editingPayment == old(editingPayment)
      ensures view == "edit-bill" ==>
        selectedBill == old(selectedBill) && editingBill == data && editingPayment == old(editingPayment)
      ensures view == "new-payment" ==>
        selectedBill == data && editingBill == old(editingBill) && editingPayment == NoData
      ensures view == "edit-payment" ==>
        selectedBill == old(selectedBill) && editingBill == old(editingBill) && editingPayment == data
      ensures view !in {"bill-details", "new-bill", "edit-bill", "new-payment", "edit-payment"} ==>
        selectedBill == NoData && editingBill == NoData && editingPayment == NoData
      ensures RenderCurrentView() == Landing(view, data, old(selectedBill))
    {
      currentView := view;
      match view {
        case "bill-details" =>
          selectedBill := data;
        case "new-bill" =>
          editingBill := NoData;
        case "edit-bill" =>
          editingBill := data;
        case "new-payment" =>
          selectedBill := data;
          editingPayment := NoData;
        case "edit-payment" =>
          editingPayment := data;
        case _ =>
          selectedBill := NoData;
          editingBill := NoData;
          editingPayment := NoData;
      }
    }

    /** The bill form's close and save, and the bill details' back: the dashboard
        with nothing selected. */
    method ReturnToDashboard()
      modifies this
      ensures currentView == "dashboard"
      ensures selectedBill == NoData && editingBill == NoData && editingPayment == NoData
      ensures RenderCurrentView() == DashboardScreen
    {
      HandleViewChange("dashboard", NoData);
    }

    /** The payment form's close and save: back to the selected bill's details when
        a bill is selected, otherwise to the dashboard. The selected bill stays
        selected either way. */
    method ClosePaymentForm()
      modifies this
      ensures selectedBill == old(selectedBill)
      ensures old(selectedBill) != NoData ==>
        currentView == "bill-details" && editingBill == old(editingBill) && editingPayment == old(editingPayment)
      ensures old(selectedBill) == NoData ==>
        currentView == "dashboard" && editingBill == NoData && editingPayment == NoData
      ensures RenderCurrentView() ==
        (if old(selectedBill) != NoData then BillDetailsScreen(old(selectedBill)) else DashboardScreen)
    {
      if selectedBill != NoData {
        HandleViewChange("bill-details", selectedBill);
      } else {
        HandleViewChange("dashboard", NoData);
      }
    }
  }

  /** Opening a bill's payment form from its details and closing it again comes
      back to the details of the same bill. */
  method PaymentRoundTrip(nav: Navigation, bill: BillView)
    modifies nav
    ensures nav.RenderCurrentView() == BillDetailsScreen(BillData(bill))
  {
    nav.HandleViewChange("bill-details", BillData(bill));
    nav.HandleViewChange("new-payment", BillData(bill));
    nav.ClosePaymentForm();
  }
}
