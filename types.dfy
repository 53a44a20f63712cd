/**
 * Shapes shared by the backend and the dashboard
 * (frontend/src/types/index.ts), as values.
 */
module Types {

  datatype Option<+T> = None | Some(value: T)

  /** One row of the dashboard's client table, with the server's derived counts. */
  datatype ClientSummary = ClientSummary(
    id: string,
    name: string,
    totalEquipment: int,
    billableEquipment: int,
    totalBilling: int)

  /** The payload of `/api/dashboard`, which the dashboard caches. */
  datatype DashboardData = DashboardData(
    clients: seq<ClientSummary>,
    totalEquipment: int,
    totalBillableEquipment: int,
    totalRevenue: int)
}
