/** The application's configuration constants. */
module Config {
  const ProxyBase: string := "https://proxy-inventory.netlify.app/.netlify/functions/proxy"
  const AdminLoginPath: string := "auth/admin/login"
  const CustomerLoginPath: string := "auth/customer/login"
  const InventoryItemsPath: string := "/inventory/items"
  const LowStockThreshold: int := 5
  const Currency: string := "$"
  const JwtStorageKey: string := "APP_JWT"
  const UserTypeKey: string := "APP_USER_TYPE"

}
