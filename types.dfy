/** The records the analysis produces and the dashboard displays. */
module Types {

  /** A customer's classification, assigned by the analysis. */
  datatype Segment = Premium | Regular | Normal {
    /** The string the analysis uses for the segment. */
    function Name(): string {
      match this
      case Premium => "premium"
      case Regular => "regular"
      case Normal => "normal"
    }
  }

  /** Number of customers in each segment. The schema asks for integers. */
  datatype CustomerSegment = CustomerSegment(premium: int, regular: int, normal: int)

  datatype DailySale = DailySale(day: string, sales: real, purchases: real)

  datatype TopCategory = TopCategory(name: string, value: real)

  datatype TopCustomer = TopCustomer(
    id: string,
    name: string,
    totalSpending: real,
    frequency: int,
    segment: Segment)

  /** One analysis result. Lengths, ranges and id uniqueness are not
      constrained: whatever the external model returns is trusted. */
  datatype DashboardData = DashboardData(
    customerSegmentation: CustomerSegment,
    dailySales: seq<DailySale>,
    topCategories: seq<TopCategory>,
    topCustomers: seq<TopCustomer>)
}
