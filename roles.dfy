/** The role names the services compare against. Roles are the plain
    strings stored on a user; any other string is a role no table knows. */
module Roles {

  const ADMIN: string := "admin"
  const PRODUCTION_MANAGER: string := "production_manager"
  const WAREHOUSE_KEEPER: string := "Warehouse_Keeper"
  const WAREHOUSE_PRODUCTS: string := "Warehouse_Products"
  const DISSECTION_TECHNICIAN: string := "Dissection_Technician"
  const CUTTING_TECHNICIAN: string := "Cutting_Technician"
  const GLUING_TECHNICIAN: string := "Gluing_Technician"
  const SALES: string := "sales"
  const ACCOUNTANT: string := "accountant"
  const CASHIER: string := "cashier"

  /** The `['admin', 'production_manager'].includes(userRole)` test that
      several service operations repeat. */
  predicate IsManager(role: string) {
    role == ADMIN || role == PRODUCTION_MANAGER
  }
}
